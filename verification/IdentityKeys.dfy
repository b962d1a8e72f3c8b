/** The identities behind idempotency: the length-prefixed encoding that is hashed, and the action identities
    that go into it. A char stands for a byte. */
module IdentityKeys {
  import opened Text

  // ---------- The length-prefixed encoding ----------

  function Prefixed(value: string): string {
    Decimal(|value|) + ":" + value
  }

  function Encode(values: seq<string>): string {
    if values == [] then "" else Prefixed(values[0]) + Encode(values[1..])
  }

  function Decode(s: string): Option<seq<string>>
    decreases |s|
  {
    if s == "" then Some([])
    else
      match Cut(s, ':')
      case None => None
      case Some((digits, rest)) =>
        if digits == "" || exists i | 0 <= i < |digits| :: !IsDigit(digits[i]) then None
        else
          var n := ParseDecimal(digits);
          if n > |rest| then None
          else
            match Decode(rest[n..])
            case None => None
            case Some(values) => Some([rest[..n]] + values)
  }

  lemma DigitsHaveNoColon(n: nat)
    ensures ':' !in Decimal(n)
  {
    var digits := Decimal(n);
    forall i | 0 <= i < |digits|
      ensures digits[i] != ':'
    {
      assert IsDigit(digits[i]);
    }
  }

  lemma CutPrefixed(value: string, rest: string)
    ensures Cut(Prefixed(value) + rest, ':') == Some((Decimal(|value|), value + rest))
  {
    DigitsHaveNoColon(|value|);
    CutAt(Decimal(|value|), ':', value + rest);
    Regroup(Decimal(|value|) + ":", value, rest);
  }

  /** The encoding can be read back, whatever the values contain. */
  lemma {:induction false} DecodeEncode(values: seq<string>)
    ensures Decode(Encode(values)) == Some(values)
  {
    if values != [] {
      var value, rest := values[0], Encode(values[1..]);
      CutPrefixed(value, rest);
      ParseDecimalDecimal(|value|);
      assert (value + rest)[|value|..] == rest && (value + rest)[..|value|] == value;
      DecodeEncode(values[1..]);
      assert Encode(values) == Prefixed(value) + rest;
      assert [value] + values[1..] == values;
    }
  }

  /** So it determines the whole list. */
  lemma EncodeInjective(a: seq<string>, b: seq<string>)
    requires Encode(a) == Encode(b)
    ensures a == b
  {
    DecodeEncode(a);
    DecodeEncode(b);
  }

  lemma {:induction false} EncodeAppend(values: seq<string>, last: string)
    ensures Encode(values + [last]) == Encode(values) + Prefixed(last)
  {
    if values == [] {
      assert [] + [last] == [last] && [last][1..] == [];
    } else {
      assert (values + [last])[1..] == values[1..] + [last];
      EncodeAppend(values[1..], last);
    }
  }

  /** digest: the hash consumes the values one by one. */
  method Digest(hash: string -> string, values: seq<string>) returns (digest: string)
    ensures digest == hash(Encode(values))
  {
    var written := "";
    for k := 0 to |values|
      invariant written == Encode(values[..k])
    {
      EncodeAppend(values[..k], values[k]);
      TakeOneMore(values, k);
      written := written + Decimal(|values[k]|) + ":";
      written := written + values[k];
      assert written == Encode(values[..k]) + Prefixed(values[k]);
    }
    assert values[..|values|] == values;
    digest := hash(written);
  }

  // ---------- Keys ----------

  ghost predicate Collisionless(hash: string -> string) {
    forall a, b | hash(a) == hash(b) :: a == b
  }

  datatype RouteParts = RouteParts(
    workspace: Id, connection: Id, flow: Id, version: nat, sourceInstance: Id, sourceProject: string,
    behavior: string, behaviorVersion: string, targetInstance: Id, targetProject: string)

  function KeyValues(p: RouteParts, action: string): seq<string> {
    ["idempotency", p.workspace, p.connection, p.flow, Decimal(p.version), p.sourceInstance, p.sourceProject,
     p.behavior, p.behaviorVersion, action, p.targetInstance, p.targetProject]
  }

  function IdempotencyKey(hash: string -> string, p: RouteParts, action: string): string {
    hash(Encode(KeyValues(p, action)))
  }

  function CorrelationValues(p: RouteParts, action: string): seq<string> {
    ["correlation", p.workspace, p.connection, p.flow, action]
  }

  function CorrelationId(hash: string -> string, p: RouteParts, action: string): string {
    "corr_" + hash(Encode(CorrelationValues(p, action)))
  }

  /** The values that go into a key and into a correlation identifier, in the order in which they are hashed. */
  lemma HashedValues(p: RouteParts, action: string)
    ensures var key := KeyValues(p, action);
      && |key| == 12 && key[0] == "idempotency" && key[1] == p.workspace && key[2] == p.connection && key[3] == p.flow
      && ParseDecimal(key[4]) == p.version && key[5] == p.sourceInstance && key[6] == p.sourceProject
      && key[7] == p.behavior && key[8] == p.behaviorVersion && key[9] == action
      && key[10] == p.targetInstance && key[11] == p.targetProject
    ensures CorrelationValues(p, action) == ["correlation", p.workspace, p.connection, p.flow, action]
  {
    ParseDecimalDecimal(p.version);
  }

  lemma SameElements(a: seq<string>, b: seq<string>, k: nat)
    requires a == b && k < |a|
    ensures a[k] == b[k]
  {
  }

  /** Two deliveries get the same key only if route, version and action are all the same. */
  lemma KeyDeterminesParts(hash: string -> string, p: RouteParts, action: string, p': RouteParts, action': string)
    requires Collisionless(hash) && IdempotencyKey(hash, p, action) == IdempotencyKey(hash, p', action')
    ensures p == p' && action == action'
  {
    EncodeInjective(KeyValues(p, action), KeyValues(p', action'));
    SameElements(KeyValues(p, action), KeyValues(p', action'), 1);
    SameElements(KeyValues(p, action), KeyValues(p', action'), 2);
    SameElements(KeyValues(p, action), KeyValues(p', action'), 3);
    SameElements(KeyValues(p, action), KeyValues(p', action'), 4);
    SameElements(KeyValues(p, action), KeyValues(p', action'), 5);
    SameElements(KeyValues(p, action), KeyValues(p', action'), 6);
    SameElements(KeyValues(p, action), KeyValues(p', action'), 7);
    SameElements(KeyValues(p, action), KeyValues(p', action'), 8);
    SameElements(KeyValues(p, action), KeyValues(p', action'), 9);
    SameElements(KeyValues(p, action), KeyValues(p', action'), 10);
    SameElements(KeyValues(p, action), KeyValues(p', action'), 11);
    ParseDecimalDecimal(p.version);
    ParseDecimalDecimal(p'.version);
  }

  lemma CorrelationDeterminesParts(hash: string -> string, p: RouteParts, action: string, p': RouteParts,
      action': string)
    requires Collisionless(hash) && CorrelationId(hash, p, action) == CorrelationId(hash, p', action')
    ensures p.workspace == p'.workspace && p.connection == p'.connection && p.flow == p'.flow && action == action'
  {
    var a, b := hash(Encode(CorrelationValues(p, action))), hash(Encode(CorrelationValues(p', action')));
    assert CorrelationId(hash, p, action)[5..] == a && CorrelationId(hash, p', action')[5..] == b;
    EncodeInjective(CorrelationValues(p, action), CorrelationValues(p', action'));
    SameElements(CorrelationValues(p, action), CorrelationValues(p', action'), 1);
    SameElements(CorrelationValues(p, action), CorrelationValues(p', action'), 2);
    SameElements(CorrelationValues(p, action), CorrelationValues(p', action'), 3);
    SameElements(CorrelationValues(p, action), CorrelationValues(p', action'), 4);
  }

  // ---------- Action identities ----------

  datatype Action =
    | Lifecycle(event: string, change: string)
    | Publication(change: string, sha: string)
    | Plain(delivery: string)

  /** The choice actionIdentity makes. `lifecycle` is the payload's own lifecycle event, `trailer` the event of
      the push's first trailer; an empty change means that the payload names none. */
  function ActionOf(
    push: bool, delivery: string, change: string, lifecycle: string, trailer: Option<string>, sha: string): Action
  {
    if change == "" then Plain(delivery)
    else if lifecycle == "abandoned" then Lifecycle("abandoned", change)
    else if push then
      Lifecycle(if lifecycle != "" then lifecycle
                else if trailer.Some? && trailer.value != "" then trailer.value
                else "archived", change)
    else Publication(change, sha)
  }

  function Tag(a: Action): (tag: string)
    ensures ':' !in tag
  {
    match a
    case Lifecycle(_, _) => "lifecycle"
    case Publication(_, _) => "publication"
    case Plain(_) => "delivery"
  }

  function Rest(a: Action): string {
    match a
    case Lifecycle(event, change) => event + ":" + change
    case Publication(change, sha) => change + ":" + sha
    case Plain(delivery) => delivery
  }

  /** actionIdentity, for the action chosen. */
  function Identity(a: Action): string {
    Tag(a) + ":" + Rest(a)
  }

  /** The text of an action's identity, from what the payload says. */
  lemma IdentityText(
    push: bool, delivery: string, change: string, lifecycle: string, trailer: Option<string>, sha: string)
    ensures Identity(ActionOf(push, delivery, change, lifecycle, trailer, sha)) ==
      if change == "" then "delivery:" + delivery
      else if lifecycle == "abandoned" then "lifecycle:abandoned:" + change
      else if !push then "publication:" + change + ":" + sha
      else if lifecycle != "" then "lifecycle:" + lifecycle + ":" + change
      else if trailer in {None, Some("")} then "lifecycle:archived:" + change
      else "lifecycle:" + trailer.value + ":" + change
  {
    var a := ActionOf(push, delivery, change, lifecycle, trailer, sha);
    if a.Lifecycle? {
      assert "lifecycle" + ":" + (a.event + ":" + change) == "lifecycle:" + a.event + ":" + change;
      assert a.event == "abandoned" ==> "lifecycle:" + "abandoned" + ":" + change == "lifecycle:abandoned:" + change;
      assert "lifecycle:" + "archived" + ":" + change == "lifecycle:archived:" + change;
    } else if a.Publication? {
      assert "publication" + ":" + (change + ":" + sha) == "publication:" + change + ":" + sha;
    } else {
      assert "delivery" + ":" + delivery == "delivery:" + delivery;
    }
  }

  /** An event name, in the code "archived" or "abandoned", holds no colon. */
  predicate Named(a: Action) {
    a.Lifecycle? ==> ':' !in a.event
  }

  lemma SameTagAndRest(a: Action, b: Action)
    requires Identity(a) == Identity(b)
    ensures Tag(a) == Tag(b) && Rest(a) == Rest(b)
  {
    CutAt(Tag(a), ':', Rest(a));
    CutAt(Tag(b), ':', Rest(b));
    assert Tag(a) + [':'] + Rest(a) == Tag(b) + [':'] + Rest(b);
  }

  lemma SameTagSameKind(a: Action, b: Action)
    requires Tag(a) == Tag(b)
    ensures a.Lifecycle? <==> b.Lifecycle?
    ensures a.Publication? <==> b.Publication?
  {
    assert |Tag(a)| == |Tag(b)|;
  }

  lemma LifecycleDetermines(event: string, change: string, event': string, change': string)
    requires ':' !in event && ':' !in event' && event + ":" + change == event' + ":" + change'
    ensures event == event' && change == change'
  {
    CutAt(event, ':', change);
    CutAt(event', ':', change');
  }

  /** Reading "change:sha" in two ways. */
  predicate Shifted(change: string, sha: string, change': string, sha': string) {
    && |change| < |change'| && change <= change' && change'[|change|] == ':'
    && sha == change'[|change| + 1..] + ":" + sha'
  }

  lemma PairReadings(change: string, sha: string, change': string, sha': string)
    ensures change + ":" + sha == change' + ":" + sha' <==>
      (change == change' && sha == sha') || Shifted(change, sha, change', sha') || Shifted(change', sha', change, sha)
  {
    if change + ":" + sha == change' + ":" + sha' {
      if |change| <= |change'| {
        PairReadingsLonger(change, sha, change', sha');
      } else {
        PairReadingsLonger(change', sha', change, sha);
      }
    } else if Shifted(change, sha, change', sha') {
      ShiftedAgrees(change, sha, change', sha');
    } else if Shifted(change', sha', change, sha) {
      ShiftedAgrees(change', sha', change, sha);
    }
  }

  lemma ShiftedAgrees(change: string, sha: string, change': string, sha': string)
    requires Shifted(change, sha, change', sha')
    ensures change + ":" + sha == change' + ":" + sha'
  {
    var x := change'[|change| + 1..];
    assert change' == change + ":" + x;
    assert change + ":" + (x + ":" + sha') == (change + ":" + x) + ":" + sha';
  }

  lemma PairReadingsLonger(change: string, sha: string, change': string, sha': string)
    requires change + ":" + sha == change' + ":" + sha' && |change| <= |change'|
    ensures (change == change' && sha == sha') || Shifted(change, sha, change', sha')
  {
    var whole := change + ":" + sha;
    assert whole[..|change|] == change && whole[..|change'|] == change';
    assert change == change'[..|change|];
    if |change| == |change'| {
      assert whole[|change| + 1..] == sha && whole[|change'| + 1..] == sha';
    } else {
      assert whole[|change|] == ':' && change'[|change|] == whole[|change|];
      var x := change'[|change| + 1..];
      assert whole[|change| + 1..] == sha;
      assert (change' + ":" + sha')[|change| + 1..] == x + ":" + sha';
    }
  }

  predicate SameReading(a: Action, b: Action) {
    a.Publication? && b.Publication? &&
    (Shifted(a.change, a.sha, b.change, b.sha) || Shifted(b.change, b.sha, a.change, a.sha))
  }

  /** Identities of different kinds never meet, and lifecycle and plain identities determine their action.
      Publication identities do so unless a head SHA starts with the rest of the other change and a colon. */
  lemma IdentityClashes(a: Action, b: Action)
    requires Named(a) && Named(b)
    ensures Identity(a) == Identity(b) <==> a == b || SameReading(a, b)
  {
    if Identity(a) == Identity(b) {
      SameTagAndRest(a, b);
      SameTagSameKind(a, b);
      if a.Publication? {
        PairReadings(a.change, a.sha, b.change, b.sha);
      } else if a.Lifecycle? {
        LifecycleDetermines(a.event, a.change, b.event, b.change);
      }
    } else if SameReading(a, b) {
      PairReadings(a.change, a.sha, b.change, b.sha);
    }
  }

  lemma ShiftedHasColon(change: string, sha: string, change': string, sha': string)
    requires Shifted(change, sha, change', sha')
    ensures ':' in sha
  {
    assert sha[|change'| - |change| - 1] == ':';
  }

  /** With SHAs as the provider writes them, without a colon, publication identities are unambiguous. */
  lemma PublicationsDistinct(change: string, sha: string, change': string, sha': string)
    requires ':' !in sha && ':' !in sha'
    requires Identity(Publication(change, sha)) == Identity(Publication(change', sha'))
    ensures change == change' && sha == sha'
  {
    IdentityClashes(Publication(change, sha), Publication(change', sha'));
    if Shifted(change, sha, change', sha') {
      ShiftedHasColon(change, sha, change', sha');
    }
    if Shifted(change', sha', change, sha) {
      ShiftedHasColon(change', sha', change, sha);
    }
  }
}
