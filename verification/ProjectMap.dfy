/** The project map as text: printed by the admin page into the env file, parsed again at start. */
module ProjectMap {
  import opened Text
  import opened EnvFile

  type Projects = map<string, string>

  // ---------- Parsing ----------

  datatype Item = Empty | Malformed | Pair(path: string, id: string)

  function ReadItem(text: string): Item {
    var item := Trim(text);
    if item == "" then Empty
    else
      match Cut(item, ':')
      case None => Malformed
      case Some((k, v)) => if Trim(k) == "" || Trim(v) == "" then Malformed else Pair(Trim(k), Trim(v))
  }

  function Items(texts: seq<string>): (items: seq<Item>)
    ensures |items| == |texts|
    ensures forall i | 0 <= i < |texts| :: items[i] == ReadItem(texts[i])
  {
    seq(|texts|, i requires 0 <= i < |texts| => ReadItem(texts[i]))
  }

  function Extend(projects: Projects, item: Item): Option<Projects> {
    match item
    case Empty => Some(projects)
    case Malformed => None
    case Pair(path, id) => if path in projects then None else Some(projects[path := id])
  }

  /** None is a start-up error: a malformed item, or a path given twice. */
  function Collect(items: seq<Item>): Option<Projects> {
    if items == [] then Some(map[])
    else
      match Collect(items[..|items| - 1])
      case None => None
      case Some(projects) => Extend(projects, items[|items| - 1])
  }

  function Parse(s: string): Option<Projects> {
    Collect(Items(Split(s, ',')))
  }

  /** parseProjectMap. */
  method ParseProjectMap(s: string) returns (r: Option<Projects>)
    ensures r == Parse(s)
  {
    var texts := Split(s, ',');
    ghost var items := Items(texts);
    var out: Projects := map[];
    for i := 0 to |texts|
      invariant Collect(items[..i]) == Some(out)
    {
      CollectStep(items, i, out);
      var item := ReadOne(texts[i]);
      assert item == items[i];
      if item.Malformed? || (item.Pair? && item.path in out) {
        CollectFails(items, i + 1);
        return None;
      }
      if item.Pair? {
        out := out[item.path := item.id];
      }
    }
    assert items[..|texts|] == items;
    return Some(out);
  }

  method ReadOne(text: string) returns (item: Item)
    ensures item == ReadItem(text)
  {
    var trimmed := Trim(text);
    if trimmed == "" {
      return Empty;
    }
    var cut := Cut(trimmed, ':');
    if cut.None? {
      return Malformed;
    }
    var k, v := Trim(cut.value.0), Trim(cut.value.1);
    return if k == "" || v == "" then Malformed else Pair(k, v);
  }

  lemma CollectStep(items: seq<Item>, i: nat, projects: Projects)
    requires i < |items| && Collect(items[..i]) == Some(projects)
    ensures Collect(items[..i + 1]) == Extend(projects, items[i])
  {
    assert items[..i + 1][..i] == items[..i];
  }

  lemma {:induction false} CollectFails(items: seq<Item>, k: nat)
    requires k <= |items| && Collect(items[..k]).None?
    ensures Collect(items).None?
  {
    if k < |items| {
      assert items[..|items| - 1][..k] == items[..k];
      CollectFails(items[..|items| - 1], k);
    } else {
      assert items[..k] == items;
    }
  }

  // ---------- Printing ----------

  function PrintEntry(path: string, id: string): string {
    path + ":" + id
  }

  function PrintEntries(paths: seq<string>, ids: string -> string): (texts: seq<string>)
    ensures |texts| == |paths|
    ensures forall i | 0 <= i < |paths| :: texts[i] == PrintEntry(paths[i], ids(paths[i]))
  {
    seq(|paths|, i requires 0 <= i < |paths| => PrintEntry(paths[i], ids(paths[i])))
  }

  /** The printing part of handleApply: each allowed path with its own or the default identifier. */
  function Print(paths: seq<string>, ids: string -> string): string {
    Join(PrintEntries(paths, ids), ',')
  }

  predicate CleanPath(path: string) {
    path != "" && IsTrimmed(path) && ',' !in path && ':' !in path
  }

  predicate CleanId(id: string) {
    IsTrimmed(id) && ',' !in id
  }

  lemma EntryReads(path: string, id: string)
    requires CleanPath(path) && CleanId(id)
    ensures ReadItem(PrintEntry(path, id)) == if id == "" then Malformed else Pair(path, id)
  {
    EntryTrimmed(path, id);
    TrimKeepsTrimmed(PrintEntry(path, id));
    CutAt(path, ':', id);
    TrimKeepsTrimmed(path);
    TrimKeepsTrimmed(id);
  }

  lemma EntryTrimmed(path: string, id: string)
    requires path != "" && IsTrimmed(path) && IsTrimmed(id)
    ensures IsTrimmed(PrintEntry(path, id)) && PrintEntry(path, id) != ""
  {
    if id != "" {
      EndsTrimmed(path + ":", id);
    } else {
      EndsTrimmed(path, ":");
      assert path + ":" + "" == path + ":";
    }
  }

  predicate DistinctPaths(paths: seq<string>) {
    forall i, j | 0 <= i < j < |paths| :: paths[i] != paths[j]
  }

  function Printed(paths: seq<string>, ids: string -> string): Projects {
    map path | path in paths :: ids(path)
  }

  /** Collecting printed entries gives the printed map, and fails exactly if an identifier is blank. */
  lemma {:induction false} CollectPrinted(paths: seq<string>, ids: string -> string, items: seq<Item>)
    requires DistinctPaths(paths) && |items| == |paths|
    requires forall i | 0 <= i < |paths| ::
      items[i] == if ids(paths[i]) == "" then Malformed else Pair(paths[i], ids(paths[i]))
    ensures Collect(items) ==
      if (forall i | 0 <= i < |paths| :: ids(paths[i]) != "") then Some(Printed(paths, ids)) else None
  {
    if paths != [] {
      var front, last := paths[..|paths| - 1], paths[|paths| - 1];
      CollectPrinted(front, ids, items[..|items| - 1]);
      assert last !in front;
      assert paths == front + [last];
      assert Printed(paths, ids) == Printed(front, ids)[last := ids(last)];
    }
  }

  lemma ReadsEmpty(text: string)
    requires text == ""
    ensures ReadItem(text) == Empty
  {
    TrimBlank(text);
  }

  lemma CollectEmpty(items: seq<Item>)
    requires |items| == 1 && items[0] == Empty
    ensures Collect(items) == Some(map[])
  {
    assert items[..0] == [];
  }

  lemma ParseEmpty(s: string)
    requires s == ""
    ensures Parse(s) == Some(map[])
  {
    var texts := Split(s, ',');
    ReadsEmpty(texts[0]);
    CollectEmpty(Items(texts));
  }

  lemma EntriesRead(paths: seq<string>, ids: string -> string)
    requires forall path | path in paths :: CleanPath(path) && CleanId(ids(path))
    ensures forall i | 0 <= i < |paths| ::
      ReadItem(PrintEntries(paths, ids)[i]) == if ids(paths[i]) == "" then Malformed else Pair(paths[i], ids(paths[i]))
    ensures forall text | text in PrintEntries(paths, ids) :: ',' !in text
  {
    var texts := PrintEntries(paths, ids);
    forall i | 0 <= i < |paths|
      ensures ReadItem(texts[i]) == if ids(paths[i]) == "" then Malformed else Pair(paths[i], ids(paths[i]))
      ensures ',' !in texts[i]
    {
      assert paths[i] in paths;
      EntryReads(paths[i], ids(paths[i]));
    }
  }

  /** Printed text parses back to the same map; a blank identifier, as a blank default gives, makes the whole
      text unreadable. */
  lemma PrintParse(paths: seq<string>, ids: string -> string)
    requires DistinctPaths(paths) && forall path | path in paths :: CleanPath(path) && CleanId(ids(path))
    ensures Parse(Print(paths, ids)) ==
      if (forall path | path in paths :: ids(path) != "") then Some(Printed(paths, ids)) else None
  {
    if paths == [] {
      ParseEmpty(Print(paths, ids));
    } else {
      EntriesRead(paths, ids);
      SplitJoin(PrintEntries(paths, ids), ',');
      CollectPrinted(paths, ids, Items(PrintEntries(paths, ids)));
    }
  }

  // ---------- Through the env file ----------

  /** No quote that the env file would take for its own. */
  predicate Plain(s: string) {
    '"' !in s && OneLine(s)
  }

  lemma PlainAround(a: string, c: char, b: string)
    requires Plain(a) && Plain(b) && c != '"' && c != '\n'
    ensures Plain(a + [c] + b)
  {
  }

  lemma {:induction false} JoinPlain(texts: seq<string>, c: char)
    requires forall text | text in texts :: Plain(text)
    requires c != '"' && c != '\n'
    ensures Plain(Join(texts, c))
  {
    if texts != [] {
      assert texts[0] in texts;
      if |texts| > 1 {
        JoinPlain(texts[1..], c);
        PlainAround(texts[0], c, Join(texts[1..], c));
      }
    }
  }

  lemma JoinHasSeparator(texts: seq<string>, c: char)
    requires |texts| > 1
    ensures c in Join(texts, c)
  {
    assert Join(texts, c) == texts[0] + [c] + Join(texts[1..], c);
    assert (texts[0] + [c] + Join(texts[1..], c))[|texts[0]|] == c;
  }

  /** A map of one path that, with its identifier, is wrapped in single quotes loses them. */
  predicate SoleWrapped(paths: seq<string>, ids: string -> string) {
    |paths| == 1 && Wrapped(PrintEntry(paths[0], ids(paths[0])))
  }

  lemma PrintedFaithful(paths: seq<string>, ids: string -> string)
    requires forall path | path in paths :: CleanPath(path) && CleanId(ids(path))
    requires forall path | path in paths :: Plain(path) && Plain(ids(path))
    requires !SoleWrapped(paths, ids)
    ensures Faithful(Print(paths, ids)) && OneLine(Print(paths, ids))
  {
    var texts := PrintEntries(paths, ids);
    forall i | 0 <= i < |texts|
      ensures Plain(texts[i])
    {
      assert paths[i] in paths;
    }
    JoinPlain(texts, ',');
    if |paths| > 1 {
      JoinHasSeparator(texts, ',');
    } else if |paths| == 1 {
      assert paths[0] in paths;
      EntryTrimmed(paths[0], ids(paths[0]));
    }
  }

  /** Applying the configuration and starting again gives back the same project map. */
  lemma AppliedMapReturns(
    content: string, keys: seq<string>, updates: Env, removes: set<string>, k: string,
    paths: seq<string>, ids: string -> string)
    requires Names(updates) && (forall x | x in updates :: OneLine(updates[x])) && k in updates
    requires Missing(keys, Split(content, '\n'), updates, removes) && forall x | x in keys :: x in updates
    requires updates[k] == Print(paths, ids) && DistinctPaths(paths)
    requires forall path | path in paths :: CleanPath(path) && CleanId(ids(path)) && ids(path) != ""
    requires !SoleWrapped(paths, ids)
    requires forall path | path in paths :: Plain(path) && Plain(ids(path))
    ensures var text := FileText(RewriteLines(Split(content, '\n'), updates, removes) + Appended(keys, updates));
      Parse(ValueOf(Split(text, '\n'), k)) == Some(Printed(paths, ids))
  {
    PrintedFaithful(paths, ids);
    EnvRoundTrip(content, keys, updates, removes, k);
    PrintParse(paths, ids);
  }
}
