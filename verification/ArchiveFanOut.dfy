/** From the commit messages of a push to the archive payloads it yields. */
module ArchiveFanOut {
  import opened Text
  import opened IdentityKeys

  const ARCHIVED := "archived"
  const ABANDONED := "abandoned"
  const MAIN := "refs/heads/main"
  const MAX_REASON := 1000

  datatype Trailer = Trailer(event: string, status: string, change: string, reason: string)

  // ---------- Reading one message ----------

  /** What the last line with the prefix says; "" if there is none. */
  function LastValue(lines: seq<string>, prefix: string): string {
    if lines == [] then ""
    else
      var line := Trim(lines[|lines| - 1]);
      if prefix <= line then Trim(line[|prefix|..]) else LastValue(lines[..|lines| - 1], prefix)
  }

  const EVENT_FIELD := "SpecWire-Event:"
  const STATUS_FIELD := "SpecWire-Status:"
  const CHANGE_FIELD := "SpecWire-Change:"
  const REASON_FIELD := "SpecWire-Reason:"

  function Fields(lines: seq<string>, event: string, status: string, change: string, reason: string): Trailer {
    Trailer(LastValue(lines, event), LastValue(lines, status), LastValue(lines, change), LastValue(lines, reason))
  }

  predicate Accepted(t: Trailer) {
    && (t.event == ARCHIVED || t.event == ABANDONED) && t.change != ""
    && (t.status == "" || t.status == t.event)
    && (t.event == ABANDONED ==>
          t.status == ABANDONED && t.reason != "" && '\r' !in t.reason && '\n' !in t.reason && |t.reason| <= MAX_REASON)
  }

  function Parse(message: string): Option<Trailer> {
    var t := Fields(Split(message, '\n'), EVENT_FIELD, STATUS_FIELD, CHANGE_FIELD, REASON_FIELD);
    if Accepted(t) then Some(t) else None
  }

  /** A line with the prefix replaces the value read so far. */
  function Refreshed(line: string, prefix: string, value: string): string {
    if prefix <= line then Trim(line[|prefix|..]) else value
  }

  lemma LastValueStep(lines: seq<string>, k: nat, prefix: string)
    requires k < |lines|
    ensures LastValue(lines[..k + 1], prefix) == Refreshed(Trim(lines[k]), prefix, LastValue(lines[..k], prefix))
  {
    assert lines[..k + 1][..k] == lines[..k];
  }

  predicate HasField(line: string, prefix: string) {
    prefix <= Trim(line)
  }

  /** Line i gives the field its value, and no later line gives it another. */
  predicate SaysAt(lines: seq<string>, prefix: string, value: string, i: nat)
    requires i < |lines|
  {
    && HasField(lines[i], prefix) && value == Trim(Trim(lines[i])[|prefix|..])
    && forall j | i < j < |lines| :: !HasField(lines[j], prefix)
  }

  /** The value of a field in the lines of a message: what follows the prefix in the last line that has it. */
  ghost predicate Says(lines: seq<string>, prefix: string, value: string) {
    || (exists i: nat :: i < |lines| && SaysAt(lines, prefix, value, i))
    || (value == "" && forall i | 0 <= i < |lines| :: !HasField(lines[i], prefix))
  }

  lemma {:induction false} LastValueSays(lines: seq<string>, prefix: string)
    ensures Says(lines, prefix, LastValue(lines, prefix))
  {
    hide Trim;
    if lines != [] {
      var front, k := lines[..|lines| - 1], |lines| - 1;
      LastValueSays(front, prefix);
      if HasField(lines[k], prefix) {
        assert SaysAt(lines, prefix, LastValue(lines, prefix), k);
      } else if i: nat :| i < |front| && SaysAt(front, prefix, LastValue(front, prefix), i) {
        assert SaysAt(lines, prefix, LastValue(lines, prefix), i);
      }
    }
  }

  lemma SaysOne(lines: seq<string>, prefix: string, value: string)
    requires Says(lines, prefix, value)
    ensures value == LastValue(lines, prefix)
  {
    LastValueSays(lines, prefix);
  }

  /** A change was archived; or it was abandoned, with the same status and a short reason in one line. */
  predicate Stated(t: Trailer) {
    && t.change != ""
    && match t.event
       case "archived" => t.status in {"", "archived"}
       case "abandoned" =>
         t.status == "abandoned" && 0 < |t.reason| <= 1000 && forall c | c in t.reason :: c !in "\r\n"
       case _ => false
  }

  /** Which messages carry a trailer, and which. */
  lemma ParseRules(message: string, t: Trailer)
    ensures Parse(message) == Some(t) <==>
      && Says(Split(message, '\n'), "SpecWire-Event:", t.event)
      && Says(Split(message, '\n'), "SpecWire-Status:", t.status)
      && Says(Split(message, '\n'), "SpecWire-Change:", t.change)
      && Says(Split(message, '\n'), "SpecWire-Reason:", t.reason)
      && Stated(t)
  {
    var lines := Split(message, '\n');
    hide Says, LastValue;
    LastValueSays(lines, "SpecWire-Event:");
    LastValueSays(lines, "SpecWire-Status:");
    LastValueSays(lines, "SpecWire-Change:");
    LastValueSays(lines, "SpecWire-Reason:");
    forall prefix, value | Says(lines, prefix, value)
      ensures value == LastValue(lines, prefix)
    {
      SaysOne(lines, prefix, value);
    }
  }

  method ReadFields(lines: seq<string>, event: string, status: string, change: string, reason: string)
    returns (trailer: Trailer)
    ensures trailer == Fields(lines, event, status, change, reason)
  {
    trailer := Trailer("", "", "", "");
    for k := 0 to |lines|
      invariant trailer == Fields(lines[..k], event, status, change, reason)
    {
      var line := Trim(lines[k]);
      LastValueStep(lines, k, event);
      LastValueStep(lines, k, status);
      LastValueStep(lines, k, change);
      LastValueStep(lines, k, reason);
      trailer := Trailer(Refreshed(line, event, trailer.event), Refreshed(line, status, trailer.status),
                         Refreshed(line, change, trailer.change), Refreshed(line, reason, trailer.reason));
    }
    assert lines[..|lines|] == lines;
  }

  method CheckTrailer(t: Trailer) returns (accepted: bool)
    ensures accepted <==> Accepted(t)
  {
    if (t.event != ARCHIVED && t.event != ABANDONED) || t.change == "" {
      return false;
    }
    if t.status != "" && t.status != t.event {
      return false;
    }
    if t.event == ABANDONED {
      if t.status != ABANDONED || t.reason == "" || '\r' in t.reason || '\n' in t.reason || |t.reason| > MAX_REASON {
        return false;
      }
    }
    return true;
  }

  method ParseLifecycleTrailer(message: string) returns (r: Option<Trailer>)
    ensures r == Parse(message)
  {
    var trailer := ReadFields(Split(message, '\n'), EVENT_FIELD, STATUS_FIELD, CHANGE_FIELD, REASON_FIELD);
    var accepted := CheckTrailer(trailer);
    return if accepted then Some(trailer) else None;
  }

  /** What the messages say, message by message. */
  function Read(messages: seq<string>): (said: seq<Option<Trailer>>)
    ensures |said| == |messages|
    ensures forall i | 0 <= i < |said| :: said[i] == Parse(messages[i])
  {
    seq(|messages|, i requires 0 <= i < |messages| => Parse(messages[i]))
  }

  // ---------- The last trailer of each event and change ----------

  predicate SameKey(a: Trailer, b: Trailer) {
    a.event == b.event && a.change == b.change
  }

  function KeyOf(t: Trailer): string {
    t.event + ":" + t.change
  }

  lemma KeysAgree(a: Trailer, b: Trailer)
    requires ':' !in a.event && ':' !in b.event
    ensures KeyOf(a) == KeyOf(b) <==> SameKey(a, b)
  {
    if KeyOf(a) == KeyOf(b) {
      LifecycleDetermines(a.event, a.change, b.event, b.change);
    }
  }

  lemma AcceptedEvent(t: Trailer)
    requires Accepted(t)
    ensures ':' !in t.event
  {
  }

  lemma ParsedEvent(message: string)
    ensures Parse(message).Some? ==> ':' !in Parse(message).value.event
  {
    if Parse(message).Some? {
      AcceptedEvent(Parse(message).value);
    }
  }

  predicate SaysKey(said: Option<Trailer>, t: Trailer) {
    said.Some? && SameKey(said.value, t)
  }

  /** t is what position i says, and no later position says its event and change. */
  predicate LastAt(said: seq<Option<Trailer>>, i: nat, t: Trailer)
    requires i < |said|
  {
    said[i] == Some(t) && forall j | i < j < |said| :: !SaysKey(said[j], t)
  }

  predicate LastFrom(said: seq<Option<Trailer>>, k: nat, t: Trailer) {
    exists i | k <= i < |said| :: LastAt(said, i, t)
  }

  predicate DistinctKeys(trailers: seq<Trailer>) {
    forall i, j | 0 <= i < j < |trailers| :: !SameKey(trailers[i], trailers[j])
  }

  /** What a scan from the end down to k must have collected. */
  ghost predicate Collected(said: seq<Option<Trailer>>, k: nat, result: seq<Trailer>) {
    DistinctKeys(result) && forall t :: t in result <==> LastFrom(said, k, t)
  }

  /** A key that some position says has a last position saying it. */
  lemma {:induction false} SaidHasLast(said: seq<Option<Trailer>>, j: nat, t: Trailer) returns (u: Trailer)
    requires j < |said| && SaysKey(said[j], t)
    ensures LastFrom(said, j, u) && SameKey(u, t)
    decreases |said| - j
  {
    if j' :| j < j' < |said| && SaysKey(said[j'], t) {
      u := SaidHasLast(said, j', t);
      var i :| j' <= i < |said| && LastAt(said, i, u);
    } else {
      u := said[j].value;
      assert LastAt(said, j, u);
    }
  }

  lemma LastFromDown(said: seq<Option<Trailer>>, k: nat, t: Trailer)
    requires k < |said|
    ensures LastFrom(said, k, t) <==> LastFrom(said, k + 1, t) || LastAt(said, k, t)
  {
    if LastFrom(said, k, t) {
      var i :| k <= i < |said| && LastAt(said, i, t);
    }
    if LastFrom(said, k + 1, t) {
      var i :| k + 1 <= i < |said| && LastAt(said, i, t);
    }
  }

  lemma CollectNone(said: seq<Option<Trailer>>, k: nat, result: seq<Trailer>)
    requires k < |said| && Collected(said, k + 1, result)
    requires said[k].None? || exists u | u in result :: SameKey(u, said[k].value)
    ensures Collected(said, k, result)
  {
    forall t
      ensures LastFrom(said, k, t) <==> LastFrom(said, k + 1, t)
    {
      LastFromDown(said, k, t);
      if said[k] == Some(t) {
        var u :| u in result && SameKey(u, t);
        var i :| k + 1 <= i < |said| && LastAt(said, i, u);
        assert SaysKey(said[i], t);
      }
    }
  }

  lemma SaidIsCollected(said: seq<Option<Trailer>>, k: nat, j: nat, t: Trailer, result: seq<Trailer>)
    requires k <= j < |said| && Collected(said, k, result) && SaysKey(said[j], t)
    ensures exists u | u in result :: SameKey(u, t)
  {
    var u := SaidHasLast(said, j, t);
    var i :| j <= i < |said| && LastAt(said, i, u);
    assert LastFrom(said, k, u);
  }

  lemma CollectOne(said: seq<Option<Trailer>>, k: nat, result: seq<Trailer>)
    requires k < |said| && Collected(said, k + 1, result)
    requires said[k].Some? && forall u | u in result :: !SameKey(u, said[k].value)
    ensures Collected(said, k, result + [said[k].value])
  {
    var t0 := said[k].value;
    forall j | k < j < |said|
      ensures !SaysKey(said[j], t0)
    {
      if SaysKey(said[j], t0) {
        SaidIsCollected(said, k + 1, j, t0, result);
      }
    }
    assert LastAt(said, k, t0);
    forall t
      ensures t in result + [t0] <==> LastFrom(said, k, t)
    {
      LastFromDown(said, k, t);
    }
  }

  /** lifecycleTrailers: newest message first, one trailer per event and change. */
  method LifecycleTrailers(messages: seq<string>) returns (result: seq<Trailer>)
    ensures Collected(Read(messages), 0, result)
  {
    ghost var said := Read(messages);
    result := [];
    var seen: set<string> := {};
    var index := |messages|;
    while index > 0
      invariant 0 <= index <= |messages|
      invariant Collected(said, index, result)
      invariant forall u | u in result :: ':' !in u.event
      invariant forall key :: key in seen <==> exists u | u in result :: KeyOf(u) == key
    {
      index := index - 1;
      ParsedEvent(messages[index]);
      var trailer := ParseLifecycleTrailer(messages[index]);
      assert trailer == said[index];
      if trailer.None? {
        CollectNone(said, index, result);
        continue;
      }
      SeenIsCollected(result, trailer.value);
      if KeyOf(trailer.value) in seen {
        CollectNone(said, index, result);
        continue;
      }
      CollectOne(said, index, result);
      seen := seen + {KeyOf(trailer.value)};
      result := result + [trailer.value];
    }
  }

  lemma SeenIsCollected(result: seq<Trailer>, t: Trailer)
    requires ':' !in t.event && forall u | u in result :: ':' !in u.event
    ensures (exists u | u in result :: KeyOf(u) == KeyOf(t)) <==> (exists u | u in result :: SameKey(u, t))
  {
    forall u | u in result
      ensures KeyOf(u) == KeyOf(t) <==> SameKey(u, t)
    {
      KeysAgree(u, t);
    }
  }

  // ---------- The payloads of a push ----------

  predicate IsZeroSha(after: string) {
    forall i | 0 <= i < |Trim(after)| :: Trim(after)[i] == '0'
  }

  /** A push that can archive: to main, and not a deletion. */
  predicate Archives(ref: string, after: string) {
    ref == MAIN && !IsZeroSha(after)
  }

  /** A push archives if it is to the main branch and leaves a commit there. */
  lemma ArchivesRule(ref: string, after: string)
    ensures Archives(ref, after) <==> ref == "refs/heads/main" && exists c | c in Trim(after) :: c != '0'
  {
    hide Trim;
    forall i | 0 <= i < |Trim(after)|
      ensures Trim(after)[i] in Trim(after)
    {
    }
  }

  /** archivedLifecycleTrailers, one payload for each. */
  method ArchivedTrailers(ref: string, after: string, messages: seq<string>) returns (result: seq<Trailer>)
    ensures !Archives(ref, after) ==> result == []
    ensures Archives(ref, after) ==> FansOut(Read(messages), result)
  {
    if !Archives(ref, after) {
      return [];
    }
    var all := LifecycleTrailers(messages);
    result := [];
    for k := 0 to |all|
      invariant DistinctKeys(result)
      invariant forall t :: t in result <==> t in all[..k] && t.event == ARCHIVED
    {
      TakeOneMore(all, k);
      if all[k].event == ARCHIVED {
        result := result + [all[k]];
      }
    }
    assert all[..|all|] == all;
  }

  /** One archive payload per archived change, with what the last message archiving it says. */
  ghost predicate FansOut(said: seq<Option<Trailer>>, result: seq<Trailer>) {
    DistinctKeys(result) && forall t :: t in result <==> t.event == ARCHIVED && LastFrom(said, 0, t)
  }

  function Changes(result: seq<Trailer>): set<string> {
    set t | t in result :: t.change
  }

  /** The action of the payload that a trailer makes of the push. */
  function PayloadAction(delivery: string, t: Trailer): Action {
    ActionOf(true, delivery, t.change, t.event, None, "")
  }

  lemma ArchiveAction(delivery: string, t: Trailer)
    requires t.event == ARCHIVED && t.change != ""
    ensures PayloadAction(delivery, t) == Lifecycle(t.event, t.change)
  {
    assert |t.event| != |"abandoned"|;
  }

  predicate ChangesNamed(said: seq<Option<Trailer>>) {
    forall i | 0 <= i < |said| && said[i].Some? :: said[i].value.change != ""
  }

  lemma ReadNamesChanges(messages: seq<string>)
    ensures ChangesNamed(Read(messages))
  {
  }

  predicate SaysArchived(said: Option<Trailer>, c: string) {
    said.Some? && said.value.event == ARCHIVED && said.value.change == c
  }

  lemma ChangesExact(said: seq<Option<Trailer>>, result: seq<Trailer>, c: string)
    requires FansOut(said, result)
    ensures c in Changes(result) <==> exists i | 0 <= i < |said| :: SaysArchived(said[i], c)
  {
    if i :| 0 <= i < |said| && SaysArchived(said[i], c) {
      var t := SaidHasLast(said, i, said[i].value);
      var k :| i <= k < |said| && LastAt(said, k, t);
      assert LastFrom(said, 0, t) && t in result;
    }
    if t :| t in result && t.change == c {
      var k :| 0 <= k < |said| && LastAt(said, k, t);
      assert SaysArchived(said[k], c);
    }
  }

  /** The fan-out is exact: the changes are those some message archives, each once, and with them the identities
      and delivery identifiers of the payloads are pairwise distinct. */
  lemma FanOutIsExact(messages: seq<string>, result: seq<Trailer>, delivery: string, c: string)
    requires FansOut(Read(messages), result)
    ensures c in Changes(result) <==> exists i | 0 <= i < |messages| :: SaysArchived(Read(messages)[i], c)
    ensures forall i, j | 0 <= i < j < |result| ::
      && result[i].change != result[j].change
      && Identity(PayloadAction(delivery, result[i])) != Identity(PayloadAction(delivery, result[j]))
      && ArchiveDelivery(delivery, result[i].change) != ArchiveDelivery(delivery, result[j].change)
  {
    hide Identity, PayloadAction, ArchiveDelivery, SaysArchived;
    var said := Read(messages);
    ReadNamesChanges(messages);
    ChangesExact(said, result, c);
    forall i, j | 0 <= i < j < |result|
      ensures result[i].change != result[j].change
      ensures Identity(PayloadAction(delivery, result[i])) != Identity(PayloadAction(delivery, result[j]))
      ensures ArchiveDelivery(delivery, result[i].change) != ArchiveDelivery(delivery, result[j].change)
    {
      assert result[i] in result && result[j] in result;
      assert !SameKey(result[i], result[j]);
      PayloadsApart(said, delivery, result[i], result[j]);
    }
  }

  lemma PayloadsApart(said: seq<Option<Trailer>>, delivery: string, a: Trailer, b: Trailer)
    requires ChangesNamed(said) && LastFrom(said, 0, a) && LastFrom(said, 0, b)
    requires a.event == ARCHIVED && b.event == ARCHIVED && a.change != b.change
    ensures Identity(PayloadAction(delivery, a)) != Identity(PayloadAction(delivery, b))
    ensures ArchiveDelivery(delivery, a.change) != ArchiveDelivery(delivery, b.change)
  {
    var i :| 0 <= i < |said| && LastAt(said, i, a);
    var j :| 0 <= j < |said| && LastAt(said, j, b);
    ArchiveAction(delivery, a);
    ArchiveAction(delivery, b);
    ChangesApart(delivery, ARCHIVED, a.change, b.change);
  }

  /** actionDeliveryID of an archive payload. */
  function ArchiveDelivery(delivery: string, change: string): string {
    delivery + (":" + ARCHIVED + ":") + change
  }

  /** The texts behind the identities of an archive payload. */
  lemma ArchiveTexts(delivery: string, t: Trailer)
    requires t.event == ARCHIVED && t.change != ""
    ensures Identity(PayloadAction(delivery, t)) == "lifecycle:archived:" + t.change
    ensures ArchiveDelivery(delivery, t.change) == delivery + ":archived:" + t.change
  {
    ArchiveAction(delivery, t);
    assert "lifecycle" + ":" + ("archived" + ":" + t.change) == "lifecycle:archived:" + t.change;
    assert ":" + ARCHIVED + ":" == ":archived:";
  }

  lemma SuffixApart(prefix: string, a: string, b: string)
    requires a != b
    ensures prefix + a != prefix + b
  {
    assert (prefix + a)[|prefix|..] == a && (prefix + b)[|prefix|..] == b;
  }

  lemma ChangesApart(delivery: string, event: string, a: string, b: string)
    requires a != b && ':' !in event
    ensures Identity(Lifecycle(event, a)) != Identity(Lifecycle(event, b))
    ensures ArchiveDelivery(delivery, a) != ArchiveDelivery(delivery, b)
  {
    IdentityClashes(Lifecycle(event, a), Lifecycle(event, b));
    SuffixApart(delivery + (":" + ARCHIVED + ":"), a, b);
  }
}
