/** The env file: rewriting some of its keys in place, and reading it back. Identifiers of the environment are
    keys; a key without a value is one whose value is "". */
module EnvFile {
  import opened Text

  type Env = map<string, string>

  function Getenv(env: Env, k: string): string {
    if k in env then env[k] else ""
  }

  // ---------- Reading ----------

  predicate Comment(trimmed: string) {
    trimmed == "" || trimmed[0] == '#'
  }

  predicate Wrapped(v: string) {
    |v| >= 2 && ((v[0] == '"' && v[|v| - 1] == '"') || (v[0] == '\'' && v[|v| - 1] == '\''))
  }

  function Unquote(v: string): string {
    if Wrapped(v) then v[1..|v| - 1] else v
  }

  function Setting(k: string, v: string): Option<(string, string)> {
    if Trim(k) == "" then None else Some((Trim(k), Unquote(Trim(v))))
  }

  function EntryOf(trimmed: string): Option<(string, string)> {
    if Comment(trimmed) then None
    else
      match Cut(trimmed, '=')
      case None => None
      case Some((k, v)) => Setting(k, v)
  }

  /** The key and value a line sets. */
  function Entry(line: string): Option<(string, string)> {
    EntryOf(Trim(line))
  }

  function Entries(lines: seq<string>): (entries: seq<Option<(string, string)>>)
    ensures |entries| == |lines|
    ensures forall i | 0 <= i < |lines| :: entries[i] == Entry(lines[i])
  {
    seq(|lines|, i requires 0 <= i < |lines| => Entry(lines[i]))
  }

  /** The first value of the key that is not empty. */
  function FirstValue(entries: seq<Option<(string, string)>>, k: string): string {
    if entries == [] then ""
    else
      var before, entry := FirstValue(entries[..|entries| - 1], k), entries[|entries| - 1];
      if before == "" && entry.Some? && entry.value.0 == k then entry.value.1 else before
  }

  /** What the lines of a file say of a key. */
  function ValueOf(lines: seq<string>, k: string): string {
    FirstValue(Entries(lines), k)
  }

  method ParseLine(line: string) returns (entry: Option<(string, string)>)
    ensures entry == Entry(line)
  {
    var trimmed := Trim(line);
    if Comment(trimmed) {
      return None;
    }
    var cut := Cut(trimmed, '=');
    if cut.None? {
      return None;
    }
    var k := Trim(cut.value.0);
    if k == "" {
      return None;
    }
    var v := Trim(cut.value.1);
    return Some((k, Unquote(v)));
  }

  /** What loading gives a key: the environment first, then the first value in the file. */
  function Effective(env0: Env, entries: seq<Option<(string, string)>>, k: string): string {
    if Getenv(env0, k) != "" then Getenv(env0, k) else FirstValue(entries, k)
  }

  /** A key that has a value already keeps it. */
  function Set(env: Env, entry: Option<(string, string)>): Env {
    if entry.Some? && Getenv(env, entry.value.0) == "" then env[entry.value.0 := entry.value.1] else env
  }

  lemma SetOneMore(env0: Env, entries: seq<Option<(string, string)>>, env: Env, i: nat)
    requires i < |entries| && forall k :: Getenv(env, k) == Effective(env0, entries[..i], k)
    ensures forall k :: Getenv(Set(env, entries[i]), k) == Effective(env0, entries[..i + 1], k)
  {
    assert entries[..i + 1][..i] == entries[..i];
    forall k
      ensures Getenv(Set(env, entries[i]), k) == Effective(env0, entries[..i + 1], k)
    {
      assert Getenv(env, k) == Effective(env0, entries[..i], k);
    }
  }

  /** loadDotEnv. */
  method LoadDotEnv(content: string, env0: Env) returns (env: Env)
    ensures forall k :: Getenv(env, k) == Effective(env0, Entries(Split(content, '\n')), k)
  {
    var lines := Split(content, '\n');
    ghost var entries := Entries(lines);
    env := env0;
    for i := 0 to |lines|
      invariant forall k :: Getenv(env, k) == Effective(env0, entries[..i], k)
    {
      var entry := ParseLine(lines[i]);
      assert entry == entries[i];
      SetOneMore(env0, entries, env, i);
      env := Set(env, entry);
    }
    assert entries[..|lines|] == entries;
  }

  // ---------- Rewriting ----------

  predicate NeedsQuotes(v: string) {
    ',' in v || '"' in v || '#' in v
  }

  function Escaped(v: string): string {
    if v == "" then "" else (if v[0] == '"' then "\\\"" else [v[0]]) + Escaped(v[1..])
  }

  function EnvQuote(v: string): string {
    if NeedsQuotes(v) then "\"" + Escaped(v) + "\"" else v
  }

  function Assignment(k: string, v: string): string {
    k + "=" + EnvQuote(v)
  }

  type OneLineText = s: string | '\n' !in s witness ""

  const MOVED: OneLineText := " # moved"

  /** The key by which the rewriter knows a line. */
  function LineKey(line: string): Option<string> {
    var trimmed := Trim(line);
    if Comment(trimmed) then None
    else match Cut(trimmed, '=') case None => None case Some((k, _)) => Some(Trim(k))
  }

  /** A removed line stays as a comment. */
  function Moved(line: string): string {
    "# " + line + MOVED
  }

  function RewriteLine(line: string, updates: Env, removes: set<string>): string {
    match LineKey(line)
    case None => line
    case Some(k) =>
      if k in removes then Moved(line)
      else if k in updates then Assignment(k, updates[k])
      else line
  }

  function RewriteLines(lines: seq<string>, updates: Env, removes: set<string>): (out: seq<string>)
    ensures |out| == |lines|
    ensures forall i | 0 <= i < |lines| :: out[i] == RewriteLine(lines[i], updates, removes)
  {
    seq(|lines|, i requires 0 <= i < |lines| => RewriteLine(lines[i], updates, removes))
  }

  /** The update a line takes, if any. */
  function Taken(line: string, updates: Env, removes: set<string>): Option<string> {
    var key := LineKey(line);
    if key.Some? && key.value !in removes && key.value in updates then key else None
  }

  function AllTaken(lines: seq<string>, updates: Env, removes: set<string>): (taken: seq<Option<string>>)
    ensures |taken| == |lines|
    ensures forall i | 0 <= i < |lines| :: taken[i] == Taken(lines[i], updates, removes)
  {
    seq(|lines|, i requires 0 <= i < |lines| => Taken(lines[i], updates, removes))
  }

  function Appended(keys: seq<string>, updates: Env): seq<string>
    requires forall k | k in keys :: k in updates
  {
    if keys == [] then []
    else Appended(keys[..|keys| - 1], updates) + [Assignment(keys[|keys| - 1], updates[keys[|keys| - 1]])]
  }

  /** The updates that no line has taken, each once, in some order. */
  ghost predicate Missing(keys: seq<string>, lines: seq<string>, updates: Env, removes: set<string>) {
    && (forall i, j | 0 <= i < j < |keys| :: keys[i] != keys[j])
    && forall k :: k in keys <==> k in updates && Some(k) !in AllTaken(lines, updates, removes)
  }

  function FileText(lines: seq<string>): string {
    Join(lines, '\n') + "\n"
  }

  method RewriteOneLine(line: string, updates: Env, removes: set<string>) returns (out: string, taken: Option<string>)
    ensures out == RewriteLine(line, updates, removes)
    ensures taken == Taken(line, updates, removes)
  {
    var key := LineKey(line);
    if key.None? {
      return line, None;
    }
    var k := key.value;
    if k in removes {
      return Moved(line), None;
    }
    if k in updates {
      return Assignment(k, updates[k]), Some(k);
    }
    return line, None;
  }

  lemma AppendOneMore(keys: seq<string>, k: string, updates: Env)
    requires (forall x | x in keys :: x in updates) && k in updates
    ensures Appended(keys + [k], updates) == Appended(keys, updates) + [Assignment(k, updates[k])]
  {
    assert (keys + [k])[..|keys|] == keys;
  }

  method AppendMissing(updates: Env, replaced: set<string>) returns (keys: seq<string>, out: seq<string>)
    ensures forall i, j | 0 <= i < j < |keys| :: keys[i] != keys[j]
    ensures forall k :: k in keys <==> k in updates && k !in replaced
    ensures (forall k | k in keys :: k in updates) && out == Appended(keys, updates)
  {
    keys, out := [], [];
    var rest := updates.Keys;
    while rest != {}
      invariant rest <= updates.Keys
      invariant forall k :: k in keys <==> k in updates && k !in rest && k !in replaced
      invariant forall i, j | 0 <= i < j < |keys| :: keys[i] != keys[j]
      invariant out == Appended(keys, updates)
    {
      var k :| k in rest;
      rest := rest - {k};
      if k !in replaced {
        AppendOneMore(keys, k, updates);
        out := out + [Assignment(k, updates[k])];
        keys := keys + [k];
      }
    }
  }

  method RewriteInPlace(lines: seq<string>, updates: Env, removes: set<string>)
    returns (out: seq<string>, replaced: set<string>)
    ensures out == RewriteLines(lines, updates, removes)
    ensures forall k :: k in replaced <==> Some(k) in AllTaken(lines, updates, removes)
  {
    ghost var all, allTaken := RewriteLines(lines, updates, removes), AllTaken(lines, updates, removes);
    out, replaced := [], {};
    for i := 0 to |lines|
      invariant out == all[..i]
      invariant forall k :: k in replaced <==> Some(k) in allTaken[..i]
    {
      TakeOneMore(all, i);
      TakeOneMore(allTaken, i);
      var rewritten, taken := RewriteOneLine(lines[i], updates, removes);
      out := out + [rewritten];
      assert rewritten == all[i] && taken == allTaken[i];
      if taken.Some? {
        replaced := replaced + {taken.value};
      }
    }
    assert all[..|lines|] == all && allTaken[..|lines|] == allTaken;
  }

  /** rewriteEnvFile, on the content of the file; `keys` are the updates appended at the end. */
  method RewriteEnvFile(content: string, updates: Env, removes: set<string>)
    returns (text: string, keys: seq<string>)
    ensures Missing(keys, Split(content, '\n'), updates, removes)
    ensures (forall k | k in keys :: k in updates)
      && text == FileText(RewriteLines(Split(content, '\n'), updates, removes) + Appended(keys, updates))
  {
    var out, replaced := RewriteInPlace(Split(content, '\n'), updates, removes);
    var appended;
    keys, appended := AppendMissing(updates, replaced);
    text := Join(out + appended, '\n') + "\n";
  }

  // ---------- One line, written and read back ----------

  /** A name the environment can hold. */
  predicate EnvName(k: string) {
    k != "" && IsTrimmed(k) && '=' !in k && '\n' !in k && k[0] != '#'
  }

  /** What a written value reads as. */
  function ReadBack(v: string): string {
    Unquote(Trim(EnvQuote(v)))
  }

  lemma EndsTrimmed(head: string, tail: string)
    requires head != "" && !IsSpace(head[0]) && tail != "" && !IsSpace(tail[|tail| - 1])
    ensures IsTrimmed(head + tail)
  {
  }

  lemma TrimTail(s: string, b: string)
    requires IsTrimmed(s) && IsBlank(b)
    ensures Trim(s + b) == s
  {
    assert "" + s + b == s + b;
    TrimBetween("", s, b);
  }

  lemma AssignmentTrimmed(k: string, w: string, a: string, b: string)
    requires EnvName(k) && IsBlank(a) && IsBlank(b) && w == a + Trim(w) + b
    ensures Trim(k + "=" + w) == k + "=" + (if Trim(w) == "" then "" else a + Trim(w))
  {
    if Trim(w) == "" {
      TrimBlank(w);
      BlankAssignment(k, w);
    } else {
      KeptAssignment(k, a, Trim(w), b);
    }
  }

  lemma BlankAssignment(k: string, w: string)
    requires EnvName(k) && IsBlank(w)
    ensures Trim(k + "=" + w) == k + "=" + ""
  {
    EndsTrimmed(k, "=");
    TrimTail(k + "=", w);
    assert k + "=" + "" == k + "=";
  }

  lemma KeptAssignment(k: string, a: string, t: string, b: string)
    requires EnvName(k) && IsBlank(b) && t != "" && IsTrimmed(t)
    ensures Trim(k + "=" + (a + t + b)) == k + "=" + (a + t)
  {
    EndsTrimmed(k + "=", a + t);
    TrimTail(k + "=" + (a + t), b);
    Regroup(k + "=", a + t, b);
  }

  lemma EntryAt(k: string, rest: string)
    requires EnvName(k)
    ensures EntryOf(k + "=" + rest) == Some((k, Unquote(Trim(rest))))
  {
    CutAt(k, '=', rest);
    TrimKeepsTrimmed(k);
  }

  lemma TrimHeadless(a: string, t: string)
    requires IsBlank(a) && IsTrimmed(t) && t != ""
    ensures Trim(a + t) == t
  {
    assert a + t + "" == a + t;
    TrimBetween(a, t, "");
  }

  lemma AssignmentEntry(k: string, v: string)
    requires EnvName(k)
    ensures Entry(Assignment(k, v)) == Some((k, ReadBack(v)))
  {
    ValueEntry(k, EnvQuote(v));
  }

  lemma ValueEntry(k: string, w: string)
    requires EnvName(k)
    ensures EntryOf(Trim(k + "=" + w)) == Some((k, Unquote(Trim(w))))
  {
    var a, b := TrimParts(w);
    AssignmentTrimmed(k, w, a, b);
    if Trim(w) == "" {
      EntryAt(k, "");
      TrimKeepsTrimmed("");
    } else {
      EntryAt(k, a + Trim(w));
      TrimHeadless(a, Trim(w));
    }
  }

  lemma {:induction false} EscapedPlain(v: string)
    requires '"' !in v
    ensures Escaped(v) == v
  {
    if v != "" {
      assert '"' !in v[1..];
      EscapedPlain(v[1..]);
    }
  }

  lemma {:induction false} EscapedLonger(v: string)
    ensures |Escaped(v)| >= |v| && ('"' in v ==> |Escaped(v)| > |v|)
  {
    if v != "" {
      EscapedLonger(v[1..]);
    }
  }

  /** Exactly the values that a rewritten file gives back. */
  predicate Faithful(v: string) {
    '"' !in v && (NeedsQuotes(v) || (IsTrimmed(v) && !Wrapped(v)))
  }

  lemma QuotedReadBack(v: string)
    requires NeedsQuotes(v)
    ensures ReadBack(v) == Escaped(v)
  {
    WrappedValue(Escaped(v));
    TrimKeepsTrimmed(EnvQuote(v));
  }

  lemma WrappedValue(e: string)
    ensures IsTrimmed("\"" + e + "\"") && Unquote("\"" + e + "\"") == e
  {
    var w := "\"" + e + "\"";
    assert w[1..|w| - 1] == e;
  }

  lemma PlainReadBack(v: string)
    requires !NeedsQuotes(v)
    ensures ReadBack(v) == v <==> IsTrimmed(v) && !Wrapped(v)
  {
    var t := Trim(v);
    if IsTrimmed(v) {
      TrimKeepsTrimmed(v);
    } else {
      UnquoteShorter(t);
    }
  }

  lemma UnquoteShorter(t: string)
    ensures |Unquote(t)| <= |t|
    ensures Unquote(t) == t <==> !Wrapped(t)
  {
  }

  /** A value reads back as itself exactly if it is faithful. */
  lemma ReadBackExact(v: string)
    ensures ReadBack(v) == v <==> Faithful(v)
  {
    if NeedsQuotes(v) {
      QuotedReadBack(v);
      EscapedLonger(v);
      if '"' !in v {
        EscapedPlain(v);
      }
    } else {
      PlainReadBack(v);
    }
  }

  lemma MovedEntry(line: string)
    ensures Entry(Moved(line)).None?
  {
    assert Moved(line)[0] == '#';
    TrimKeepsHead(Moved(line));
  }

  predicate Sets(entry: Option<(string, string)>, k: string) {
    entry.Some? && entry.value.0 == k
  }

  lemma EntryKey(line: string, k: string)
    requires Sets(Entry(line), k)
    ensures LineKey(line) == Some(k) && k != ""
  {
  }

  predicate Names(updates: Env) {
    forall k | k in updates :: EnvName(k)
  }

  lemma UpdatedEntry(line: string, updates: Env, removes: set<string>, k: string)
    requires Names(updates) && k in updates
    ensures Sets(Entry(RewriteLine(line, updates, removes)), k) ==>
      Entry(RewriteLine(line, updates, removes)).value.1 == ReadBack(updates[k])
    ensures Taken(line, updates, removes) == Some(k) ==> Sets(Entry(RewriteLine(line, updates, removes)), k)
  {
    var key := LineKey(line);
    if key.Some? && key.value in removes {
      MovedEntry(line);
    } else if key.Some? && key.value in updates {
      AssignmentEntry(key.value, updates[key.value]);
    } else if Sets(Entry(line), k) {
      EntryKey(line, k);
    }
  }

  lemma RemovedEntry(line: string, updates: Env, removes: set<string>, k: string)
    requires Names(updates) && k in removes && k !in updates
    ensures !Sets(Entry(RewriteLine(line, updates, removes)), k)
  {
    var key := LineKey(line);
    if key.Some? && key.value in removes {
      MovedEntry(line);
    } else if key.Some? && key.value in updates {
      AssignmentEntry(key.value, updates[key.value]);
    } else if Sets(Entry(line), k) {
      EntryKey(line, k);
    }
  }

  lemma OtherEntry(line: string, updates: Env, removes: set<string>, k: string)
    requires Names(updates) && k !in removes && k !in updates
    ensures Sets(Entry(RewriteLine(line, updates, removes)), k) <==> Sets(Entry(line), k)
    ensures Sets(Entry(line), k) ==> Entry(RewriteLine(line, updates, removes)) == Entry(line)
  {
    var key := LineKey(line);
    if Sets(Entry(line), k) {
      EntryKey(line, k);
    } else if key.Some? && key.value in removes {
      MovedEntry(line);
    } else if key.Some? && key.value in updates {
      AssignmentEntry(key.value, updates[key.value]);
    }
  }

  // ---------- The whole file ----------

  type Entried = seq<Option<(string, string)>>

  lemma {:induction false} FirstValueAppend(a: Entried, b: Entried, k: string)
    ensures FirstValue(a + b, k) == if FirstValue(a, k) != "" then FirstValue(a, k) else FirstValue(b, k)
  {
    if b == [] {
      assert a + b == a;
    } else {
      assert (a + b)[..|a + b| - 1] == a + b[..|b| - 1];
      FirstValueAppend(a, b[..|b| - 1], k);
    }
  }

  lemma {:induction false} UniformValue(entries: Entried, k: string, v: string)
    requires forall i | 0 <= i < |entries| && Sets(entries[i], k) :: entries[i].value.1 == v
    ensures FirstValue(entries, k) == "" || FirstValue(entries, k) == v
    ensures (exists i | 0 <= i < |entries| :: Sets(entries[i], k)) ==> FirstValue(entries, k) == v
  {
    if entries != [] {
      UniformValue(entries[..|entries| - 1], k, v);
    }
  }

  lemma {:induction false} NoValue(entries: Entried, k: string)
    requires forall i | 0 <= i < |entries| :: !Sets(entries[i], k)
    ensures FirstValue(entries, k) == ""
  {
    if entries != [] {
      NoValue(entries[..|entries| - 1], k);
    }
  }

  lemma {:induction false} SameValue(a: Entried, b: Entried, k: string)
    requires |a| == |b|
    requires forall i | 0 <= i < |a| :: (Sets(a[i], k) <==> Sets(b[i], k)) && (Sets(a[i], k) ==> a[i] == b[i])
    ensures FirstValue(a, k) == FirstValue(b, k)
  {
    if a != [] {
      SameValue(a[..|a| - 1], b[..|b| - 1], k);
    }
  }

  lemma {:induction false} AppendedAt(keys: seq<string>, updates: Env)
    requires forall k | k in keys :: k in updates
    ensures |Appended(keys, updates)| == |keys|
    ensures forall i | 0 <= i < |keys| ::
      keys[i] in updates && Appended(keys, updates)[i] == Assignment(keys[i], updates[keys[i]])
  {
    if keys != [] {
      AppendedAt(keys[..|keys| - 1], updates);
      assert keys[|keys| - 1] in keys;
    }
  }

  /** The entries of the rewritten lines and of the appended ones. */
  lemma RewrittenEntries(lines: seq<string>, keys: seq<string>, updates: Env, removes: set<string>)
    returns (old': Entried, new': Entried)
    requires Names(updates) && forall k | k in keys :: k in updates
    ensures |old'| == |lines| && |new'| == |keys|
    ensures Entries(RewriteLines(lines, updates, removes) + Appended(keys, updates)) == old' + new'
    ensures forall i | 0 <= i < |lines| :: old'[i] == Entry(RewriteLine(lines[i], updates, removes))
    ensures forall i | 0 <= i < |keys| :: keys[i] in updates && new'[i] == Some((keys[i], ReadBack(updates[keys[i]])))
  {
    AppendedAt(keys, updates);
    old', new' := Entries(RewriteLines(lines, updates, removes)), Entries(Appended(keys, updates));
    EntriesAppend(RewriteLines(lines, updates, removes), Appended(keys, updates));
    forall i | 0 <= i < |keys|
      ensures keys[i] in updates && new'[i] == Some((keys[i], ReadBack(updates[keys[i]])))
    {
      AssignmentEntry(keys[i], updates[keys[i]]);
    }
  }

  lemma EntriesAppend(a: seq<string>, b: seq<string>)
    ensures Entries(a + b) == Entries(a) + Entries(b)
  {
  }

  lemma UpdatedLines(lines: seq<string>, old': Entried, updates: Env, removes: set<string>, k: string)
    requires Names(updates) && k in updates && |old'| == |lines|
    requires forall i | 0 <= i < |lines| :: old'[i] == Entry(RewriteLine(lines[i], updates, removes))
    ensures forall i | 0 <= i < |lines| && Sets(old'[i], k) :: old'[i].value.1 == ReadBack(updates[k])
    ensures Some(k) in AllTaken(lines, updates, removes) ==> exists i | 0 <= i < |lines| :: Sets(old'[i], k)
  {
    var taken := AllTaken(lines, updates, removes);
    forall i | 0 <= i < |lines|
      ensures Sets(old'[i], k) ==> old'[i].value.1 == ReadBack(updates[k])
      ensures taken[i] == Some(k) ==> Sets(old'[i], k)
    {
      UpdatedEntry(lines[i], updates, removes, k);
    }
  }

  lemma UpdatedCore(old': Entried, new': Entried, k: string, v: string)
    requires forall i | 0 <= i < |old'| && Sets(old'[i], k) :: old'[i].value.1 == v
    requires forall i | 0 <= i < |new'| && Sets(new'[i], k) :: new'[i].value.1 == v
    requires (exists i | 0 <= i < |old'| :: Sets(old'[i], k)) || (exists i | 0 <= i < |new'| :: Sets(new'[i], k))
    ensures FirstValue(old' + new', k) == v
  {
    UniformValue(old', k, v);
    UniformValue(new', k, v);
    FirstValueAppend(old', new', k);
  }

  lemma KeySets(keys: seq<string>, entries: Entried, k: string)
    requires k in keys && |entries| == |keys|
    requires forall i | 0 <= i < |keys| :: Sets(entries[i], keys[i])
    ensures exists i | 0 <= i < |entries| :: Sets(entries[i], k)
  {
    var i :| 0 <= i < |keys| && keys[i] == k;
    assert Sets(entries[i], k);
  }

  lemma UpdatedValue(lines: seq<string>, keys: seq<string>, updates: Env, removes: set<string>, k: string)
    requires Names(updates) && Missing(keys, lines, updates, removes) && k in updates
    requires forall x | x in keys :: x in updates
    ensures ValueOf(RewriteLines(lines, updates, removes) + Appended(keys, updates), k) == ReadBack(updates[k])
  {
    var old', new' := RewrittenEntries(lines, keys, updates, removes);
    UpdatedLines(lines, old', updates, removes, k);
    if k in keys {
      KeySets(keys, new', k);
    }
    UpdatedCore(old', new', k, ReadBack(updates[k]));
  }

  lemma RemovedValue(lines: seq<string>, keys: seq<string>, updates: Env, removes: set<string>, k: string)
    requires Names(updates) && k in removes && k !in updates
    requires forall x | x in keys :: x in updates
    ensures ValueOf(RewriteLines(lines, updates, removes) + Appended(keys, updates), k) == ""
  {
    var old', new' := RewrittenEntries(lines, keys, updates, removes);
    forall i | 0 <= i < |lines|
      ensures !Sets(old'[i], k)
    {
      RemovedEntry(lines[i], updates, removes, k);
    }
    NoValue(old', k);
    NoValue(new', k);
    FirstValueAppend(old', new', k);
  }

  lemma OtherValue(lines: seq<string>, keys: seq<string>, updates: Env, removes: set<string>, k: string)
    requires Names(updates) && k !in removes && k !in updates
    requires forall x | x in keys :: x in updates
    ensures ValueOf(RewriteLines(lines, updates, removes) + Appended(keys, updates), k) == ValueOf(lines, k)
  {
    var old', new' := RewrittenEntries(lines, keys, updates, removes);
    forall i | 0 <= i < |lines|
      ensures Sets(old'[i], k) <==> Sets(Entries(lines)[i], k)
      ensures Sets(old'[i], k) ==> old'[i] == Entries(lines)[i]
    {
      OtherEntry(lines[i], updates, removes, k);
    }
    SameValue(old', Entries(lines), k);
    NoValue(new', k);
    FirstValueAppend(old', new', k);
  }

  // ---------- The text between ----------

  predicate OneLine(s: string) {
    '\n' !in s
  }

  lemma {:induction false} EscapedOneLine(v: string)
    requires OneLine(v)
    ensures OneLine(Escaped(v))
  {
    if v != "" {
      assert v[0] in v && OneLine(v[1..]);
      EscapedOneLine(v[1..]);
    }
  }

  lemma AssignmentOneLine(k: string, v: string)
    requires OneLine(k) && OneLine(v)
    ensures OneLine(Assignment(k, v))
  {
    EscapedOneLine(v);
  }

  lemma {:induction false} JoinEmptyLast(lines: seq<string>, c: char)
    requires lines != []
    ensures Join(lines + [""], c) == Join(lines, c) + [c]
  {
    if |lines| == 1 {
      assert (lines + [""])[1..] == [""];
      assert Join([""], c) == "";
    } else {
      assert (lines + [""])[1..] == lines[1..] + [""];
      JoinEmptyLast(lines[1..], c);
    }
  }

  /** The file is read line by line as it was written. */
  lemma TextLines(lines: seq<string>)
    requires lines != [] && forall line | line in lines :: OneLine(line)
    ensures Split(FileText(lines), '\n') == lines + [""]
  {
    JoinEmptyLast(lines, '\n');
    SplitJoin(lines + [""], '\n');
  }

  lemma BlankLineSetsNothing(lines: seq<string>, k: string)
    ensures ValueOf(lines + [""], k) == ValueOf(lines, k)
  {
    EntriesAppend(lines, [""]);
    TrimBlank("");
    FirstValueAppend(Entries(lines), Entries([""]), k);
    NoValue(Entries([""]), k);
  }

  lemma RewriteOneLineEach(line: string, updates: Env, removes: set<string>)
    requires OneLine(line) && Names(updates) && forall k | k in updates :: OneLine(updates[k])
    ensures OneLine(RewriteLine(line, updates, removes))
  {
    var key := LineKey(line);
    if key.Some? {
      KeyedOneLine(line, key.value, updates, removes);
    }
  }

  lemma KeyedOneLine(line: string, k: string, updates: Env, removes: set<string>)
    requires OneLine(line) && Names(updates) && forall x | x in updates :: OneLine(updates[x])
    ensures OneLine(if k in removes then Moved(line) else if k in updates then Assignment(k, updates[k]) else line)
  {
    if k in removes {
      MovedOneLine(line);
    } else if k in updates {
      AssignmentOneLine(k, updates[k]);
    }
  }

  lemma RewrittenOneLine(lines: seq<string>, updates: Env, removes: set<string>)
    requires forall line | line in lines :: OneLine(line)
    requires Names(updates) && forall k | k in updates :: OneLine(updates[k])
    ensures forall line | line in RewriteLines(lines, updates, removes) :: OneLine(line)
  {
    var out := RewriteLines(lines, updates, removes);
    forall i | 0 <= i < |out|
      ensures OneLine(out[i])
    {
      RewriteOneLineEach(lines[i], updates, removes);
    }
  }

  lemma AppendedOneLine(keys: seq<string>, updates: Env)
    requires Names(updates) && (forall k | k in updates :: OneLine(updates[k])) && forall x | x in keys :: x in updates
    ensures forall line | line in Appended(keys, updates) :: OneLine(line)
  {
    AppendedAt(keys, updates);
    var out := Appended(keys, updates);
    forall i | 0 <= i < |out|
      ensures OneLine(out[i])
    {
      AssignmentOneLine(keys[i], updates[keys[i]]);
    }
  }

  lemma MovedOneLine(line: string)
    requires OneLine(line)
    ensures OneLine(Moved(line))
  {
  }

  /** What reading the rewritten file gives each key: an updated key its value as read back, a removed key
      nothing, every other key what the old file gave it. */
  lemma RewrittenFileValues(content: string, keys: seq<string>, updates: Env, removes: set<string>, k: string)
    requires Names(updates) && (forall x | x in updates :: OneLine(updates[x]))
    requires Missing(keys, Split(content, '\n'), updates, removes) && forall x | x in keys :: x in updates
    ensures var text := FileText(RewriteLines(Split(content, '\n'), updates, removes) + Appended(keys, updates));
      ValueOf(Split(text, '\n'), k) ==
        if k in updates then ReadBack(updates[k])
        else if k in removes then ""
        else ValueOf(Split(content, '\n'), k)
  {
    var lines := Split(content, '\n');
    var out := RewriteLines(lines, updates, removes) + Appended(keys, updates);
    RewrittenOneLine(lines, updates, removes);
    AppendedOneLine(keys, updates);
    TextLines(out);
    BlankLineSetsNothing(out, k);
    if k in updates {
      UpdatedValue(lines, keys, updates, removes, k);
    } else if k in removes {
      RemovedValue(lines, keys, updates, removes, k);
    } else {
      OtherValue(lines, keys, updates, removes, k);
    }
  }

  /** Env round trip: a written value is read back exactly when it is faithful: free of double quotes, and
      either quoted by the writer or trimmed and not wrapped in quotes of its own. */
  lemma EnvRoundTrip(content: string, keys: seq<string>, updates: Env, removes: set<string>, k: string)
    requires Names(updates) && (forall x | x in updates :: OneLine(updates[x])) && k in updates
    requires Missing(keys, Split(content, '\n'), updates, removes) && forall x | x in keys :: x in updates
    ensures var text := FileText(RewriteLines(Split(content, '\n'), updates, removes) + Appended(keys, updates));
      ValueOf(Split(text, '\n'), k) == updates[k] <==> Faithful(updates[k])
  {
    RewrittenFileValues(content, keys, updates, removes, k);
    ReadBackExact(updates[k]);
  }

  /** A value with a line break never reads back: what a line sets has none. */
  lemma LineBreaksAreLost(text: string, k: string, v: string)
    requires '\n' in v
    ensures ValueOf(Split(text, '\n'), k) != v
  {
    var lines := Split(text, '\n');
    forall i | 0 <= i < |lines|
      ensures Entry(lines[i]).Some? ==> OneLine(Entry(lines[i]).value.1)
    {
      assert lines[i] in lines;
      EntryOneLine(lines[i]);
    }
    ValuesOneLine(Entries(lines), k);
  }

  lemma MiddleOneLine(a: string, t: string, b: string)
    requires OneLine(a + t + b)
    ensures OneLine(t)
  {
    forall i | 0 <= i < |t|
      ensures t[i] != '\n'
    {
      assert (a + t + b)[|a| + i] == t[i];
    }
  }

  lemma TrimOneLine(s: string)
    requires OneLine(s)
    ensures OneLine(Trim(s))
  {
    var a, b := TrimParts(s);
    MiddleOneLine(a, Trim(s), b);
  }

  lemma SettingOneLine(k: string, v: string)
    requires OneLine(v)
    ensures Setting(k, v).Some? ==> OneLine(Setting(k, v).value.1)
  {
    TrimOneLine(v);
    UnquoteOneLine(Trim(v));
  }

  lemma UnquoteOneLine(v: string)
    requires OneLine(v)
    ensures OneLine(Unquote(v))
  {
    if Wrapped(v) {
      assert v == v[..1] + v[1..|v| - 1] + v[|v| - 1..];
      MiddleOneLine(v[..1], v[1..|v| - 1], v[|v| - 1..]);
    }
  }

  lemma EntryOneLine(line: string)
    requires OneLine(line)
    ensures Entry(line).Some? ==> OneLine(Entry(line).value.1)
  {
    TrimOneLine(line);
    var cut := Cut(Trim(line), '=');
    if cut.Some? {
      CutParts(Trim(line), '=');
      MiddleOneLine(cut.value.0 + "=", cut.value.1, "");
      SettingOneLine(cut.value.0, cut.value.1);
    }
  }

  lemma {:induction false} ValuesOneLine(entries: Entried, k: string)
    requires forall i | 0 <= i < |entries| && entries[i].Some? :: OneLine(entries[i].value.1)
    ensures OneLine(FirstValue(entries, k))
  {
    if entries != [] {
      ValuesOneLine(entries[..|entries| - 1], k);
    }
  }

  // ---------- The text of a line ----------

  /** The line, blanks around it aside, is no comment and has its first equals sign between a and w. */
  predicate Assigns(line: string, a: string, w: string) {
    Trim(line) == a + "=" + w && '=' !in a && Trim(line)[0] != '#'
  }

  predicate InQuotes(w: string, v: string) {
    w == "\"" + v + "\"" || w == "'" + v + "'"
  }

  /** v is w without one matching pair of quotes around it, if it has one. */
  ghost predicate Stripped(w: string, v: string) {
    InQuotes(w, v) || (v == w && forall x :: !InQuotes(w, x))
  }

  lemma UnquoteStrips(w: string, v: string)
    ensures Unquote(w) == v <==> Stripped(w, v)
  {
    if Wrapped(w) {
      assert w == [w[0]] + w[1..|w| - 1] + [w[|w| - 1]];
      assert InQuotes(w, w[1..|w| - 1]);
    }
    forall x | InQuotes(w, x)
      ensures Wrapped(w) && w[1..|w| - 1] == x
    {
    }
  }

  lemma AssignsCut(line: string, a: string, w: string)
    ensures Assigns(line, a, w) <==> !Comment(Trim(line)) && Cut(Trim(line), '=') == Some((a, w))
  {
    if Assigns(line, a, w) {
      CutAt(a, '=', w);
    } else if Cut(Trim(line), '=') == Some((a, w)) {
      CutParts(Trim(line), '=');
      BeforeCut(Trim(line), '=');
    }
  }

  lemma BeforeCut(s: string, c: char)
    requires Cut(s, c).Some?
    ensures c !in Cut(s, c).value.0
  {
  }

  /** Which key a line sets when it is read, and to which value. */
  lemma EntryText(line: string, k: string, v: string)
    ensures Entry(line) == Some((k, v)) <==>
      k != "" && exists a, w :: Assigns(line, a, w) && Trim(a) == k && Stripped(Trim(w), v)
  {
    hide Stripped, Assigns;
    forall a, w
      ensures Assigns(line, a, w) <==> !Comment(Trim(line)) && Cut(Trim(line), '=') == Some((a, w))
      ensures Unquote(Trim(w)) == v <==> Stripped(Trim(w), v)
    {
      AssignsCut(line, a, w);
      UnquoteStrips(Trim(w), v);
    }
    if Entry(line) == Some((k, v)) {
      var cut := Cut(Trim(line), '=').value;
      assert Assigns(line, cut.0, cut.1) && Stripped(Trim(cut.1), v);
    }
  }

  /** Which key the rewriter knows a line by. */
  lemma LineKeyText(line: string, k: string)
    ensures LineKey(line) == Some(k) <==> exists a, w :: Assigns(line, a, w) && Trim(a) == k
  {
    hide Assigns;
    forall a, w
      ensures Assigns(line, a, w) <==> !Comment(Trim(line)) && Cut(Trim(line), '=') == Some((a, w))
    {
      AssignsCut(line, a, w);
    }
    if LineKey(line) == Some(k) {
      var cut := Cut(Trim(line), '=').value;
      assert Assigns(line, cut.0, cut.1);
    }
  }

  /** What the rewriter writes for a line: a removed key stays as a comment, an updated one is assigned anew, and
      every other line is left as it is. */
  lemma RewrittenText(line: string, a: string, w: string, updates: Env, removes: set<string>)
    ensures Assigns(line, a, w) && Trim(a) in removes ==>
      "# " + line <= RewriteLine(line, updates, removes) && |RewriteLine(line, updates, removes)| > |line| + 2
    ensures Assigns(line, a, w) && Trim(a) !in removes && Trim(a) in updates ==>
      RewriteLine(line, updates, removes) == Trim(a) + "=" + EnvQuote(updates[Trim(a)])
    ensures Assigns(line, a, w) && Trim(a) !in removes && Trim(a) !in updates ==>
      RewriteLine(line, updates, removes) == line
    ensures (forall x, y :: !Assigns(line, x, y)) ==> RewriteLine(line, updates, removes) == line
  {
    AssignsCut(line, a, w);
    var cut := Cut(Trim(line), '=');
    if cut.Some? {
      AssignsCut(line, cut.value.0, cut.value.1);
    }
    assert Moved(line) == "# " + (line + MOVED);
    assert "# " + line <= Moved(line);
  }

  lemma {:induction false} EscapedAppend(a: string, b: string)
    ensures Escaped(a + b) == Escaped(a) + Escaped(b)
  {
    if a == "" {
      assert a + b == b;
    } else {
      assert (a + b)[1..] == a[1..] + b;
      EscapedAppend(a[1..], b);
    }
  }

  /** How a value is written: as it is, or, with a comma, a number sign or a double quote in it, in double quotes
      with a backslash before every double quote. */
  lemma QuotedText(v: string, a: string, c: char, b: string)
    ensures (',' in v || '#' in v || '"' in v) ==> EnvQuote(v) == "\"" + Escaped(v) + "\""
    ensures ',' !in v && '#' !in v && '"' !in v ==> EnvQuote(v) == v
    ensures Escaped(a + [c] + b) == Escaped(a) + (if c == '"' then "\\\"" else [c]) + Escaped(b)
  {
    EscapedAppend(a + [c], b);
    EscapedAppend(a, [c]);
    assert [c][1..] == "";
  }
}
