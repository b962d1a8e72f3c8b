/** Strings as the Go standard library treats them, as far as the modelled code needs it:
    trimming, splitting at a separator, cutting at its first occurrence, decimal numerals. */
module Text {

  datatype Option<+T> = None | Some(value: T)

  /** Identifiers are opaque text; the empty one stands for "not given". */
  type Id = string

  lemma TakeOneMore<T>(s: seq<T>, k: nat)
    requires k < |s|
    ensures s[..k + 1] == s[..k] + [s[k]]
  {
  }

  lemma AppendAfter<T>(a: seq<T>, b: seq<T>, x: T)
    ensures a + (b + [x]) == a + b + [x]
  {
  }

  lemma Member<T>(s: set<T>) returns (x: T)
    requires s != {}
    ensures x in s
  {
    x :| x in s;
  }

  /** The White_Space code points that strings.TrimSpace removes. */
  predicate IsSpace(c: char) {
    || c == ' ' || c == '\t' || c == '\n' || c == '\r'
    || c == '\U{B}' || c == '\U{C}' || c == '\U{85}' || c == '\U{A0}' || c == '\U{1680}'
    || '\U{2000}' <= c <= '\U{200A}'
    || c == '\U{2028}' || c == '\U{2029}' || c == '\U{202F}' || c == '\U{205F}' || c == '\U{3000}'
  }

  function TrimLeft(s: string): (r: string)
    ensures |r| <= |s| && (r == "" || !IsSpace(r[0]))
  {
    if s != "" && IsSpace(s[0]) then TrimLeft(s[1..]) else s
  }

  function TrimRight(s: string): (r: string)
    ensures |r| <= |s| && (r == "" || !IsSpace(r[|r| - 1]))
  {
    if s != "" && IsSpace(s[|s| - 1]) then TrimRight(s[..|s| - 1]) else s
  }

  function Trim(s: string): (r: string)
    ensures IsTrimmed(r) && |r| <= |s|
  {
    TrimmedTail(TrimLeft(s));
    TrimRight(TrimLeft(s))
  }

  lemma {:induction false} TrimmedHead(s: string)
    ensures s == s[..|s| - |TrimLeft(s)|] + TrimLeft(s) && IsBlank(s[..|s| - |TrimLeft(s)|])
  {
    if s != "" && IsSpace(s[0]) {
      TrimmedHead(s[1..]);
      var n := |s| - |TrimLeft(s)|;
      assert s[..n] == [s[0]] + s[1..][..n - 1];
      assert s == [s[0]] + s[1..];
    } else {
      assert s[..0] == "";
    }
  }

  lemma BlankOneMore(s: string, c: char)
    requires IsBlank(s) && IsSpace(c)
    ensures IsBlank(s + [c])
  {
    hide IsSpace;
  }

  lemma {:induction false} TrimRightCuts(s: string)
    ensures TrimRight(s) <= s && IsBlank(s[|TrimRight(s)|..])
  {
    hide IsSpace, IsBlank;
    if s != "" && IsSpace(s[|s| - 1]) {
      var front, last := s[..|s| - 1], s[|s| - 1];
      TrimRightCuts(front);
      BlankOneMore(front[|TrimRight(s)|..], last);
      assert s[|TrimRight(s)|..] == front[|TrimRight(s)|..] + [last];
    } else {
      assert s[|s|..] == "";
      EmptyIsBlank();
    }
  }

  lemma EmptyIsBlank()
    ensures IsBlank("")
  {
  }

  lemma TrimmedTail(s: string)
    ensures s == TrimRight(s) + s[|TrimRight(s)|..] && IsBlank(s[|TrimRight(s)|..])
    ensures TrimRight(s) != "" ==> TrimRight(s)[0] == s[0]
  {
    TrimRightCuts(s);
  }

  predicate IsTrimmed(s: string) {
    s == "" || (!IsSpace(s[0]) && !IsSpace(s[|s| - 1]))
  }

  predicate IsBlank(s: string) {
    forall i | 0 <= i < |s| :: IsSpace(s[i])
  }

  lemma TrimKeepsTrimmed(s: string)
    requires IsTrimmed(s)
    ensures Trim(s) == s
  {
  }

  lemma TrimBlank(s: string)
    ensures IsBlank(s) <==> Trim(s) == ""
  {
    var a, b := TrimParts(s);
    assert Trim(s) != "" ==> s[|a|] == Trim(s)[0];
  }

  lemma {:induction false} TrimLeftPast(a: string, t: string)
    requires IsBlank(a) && (t == "" || !IsSpace(t[0]))
    ensures TrimLeft(a + t) == t
  {
    if a == "" {
      assert a + t == t;
    } else {
      assert (a + t)[1..] == a[1..] + t;
      TrimLeftPast(a[1..], t);
    }
  }

  lemma {:induction false} TrimRightPast(t: string, b: string)
    requires IsBlank(b) && (t == "" || !IsSpace(t[|t| - 1]))
    ensures TrimRight(t + b) == t
  {
    if b == "" {
      assert t + b == t;
    } else {
      assert (t + b)[..|t + b| - 1] == t + b[..|b| - 1];
      TrimRightPast(t, b[..|b| - 1]);
    }
  }

  /** Trim removes exactly the blank ends. */
  lemma TrimBetween(a: string, t: string, b: string)
    requires IsBlank(a) && IsBlank(b) && IsTrimmed(t)
    ensures Trim(a + t + b) == t
  {
    if t == "" {
      assert IsBlank(a + t + b);
      TrimBlank(a + t + b);
    } else {
      Regroup(a, t, b);
      TrimLeftPast(a, t + b);
      TrimRightPast(t, b);
    }
  }

  lemma TrimKeepsHead(s: string)
    requires s != "" && !IsSpace(s[0])
    ensures Trim(s) != "" && Trim(s)[0] == s[0]
  {
    TrimBlank(s);
    TrimmedTail(s);
  }

  lemma TrimParts(s: string) returns (a: string, b: string)
    ensures IsBlank(a) && IsBlank(b) && s == a + Trim(s) + b
  {
    var l := TrimLeft(s);
    a, b := s[..|s| - |l|], l[|TrimRight(l)|..];
    TrimmedHead(s);
    TrimmedTail(l);
    Regroup(a, TrimRight(l), b);
  }

  lemma Regroup(x: string, y: string, z: string)
    ensures x + (y + z) == x + y + z
  {
  }

  function IndexOf(s: string, c: char): (r: nat)
    ensures r <= |s|
    ensures r < |s| ==> s[r] == c
    ensures forall i | 0 <= i < r :: s[i] != c
  {
    if s == "" || s[0] == c then 0 else 1 + IndexOf(s[1..], c)
  }

  lemma IndexOfFirst(s: string, c: char, i: nat)
    requires i <= |s| && (i < |s| ==> s[i] == c)
    requires c !in s[..i]
    ensures IndexOf(s, c) == i
  {
    assert forall j | 0 <= j < i :: s[j] == s[..i][j];
  }

  /** strings.Cut with a one-character separator. */
  function Cut(s: string, c: char): (r: Option<(string, string)>)
    ensures r.Some? ==> |r.value.1| < |s|
  {
    var i := IndexOf(s, c);
    if i == |s| then None else Some((s[..i], s[i + 1..]))
  }

  lemma CutParts(s: string, c: char)
    requires Cut(s, c).Some?
    ensures s == Cut(s, c).value.0 + [c] + Cut(s, c).value.1
  {
    var i := IndexOf(s, c);
    assert s == s[..i] + [c] + s[i + 1..];
  }

  lemma CutAt(before: string, c: char, after: string)
    requires c !in before
    ensures Cut(before + [c] + after, c) == Some((before, after))
  {
    var s := before + [c] + after;
    IndexOfFirst(s, c, |before|);
    assert s[..|before|] == before && s[|before| + 1..] == after;
  }

  /** strings.Split with a one-character separator: never empty. */
  function Split(s: string, c: char): (r: seq<string>)
    ensures |r| >= 1
    ensures forall part | part in r :: c !in part
    decreases |s|
  {
    var i := IndexOf(s, c);
    if i == |s| then [s] else [s[..i]] + Split(s[i + 1..], c)
  }

  function Join(parts: seq<string>, c: char): string {
    if parts == [] then ""
    else if |parts| == 1 then parts[0]
    else parts[0] + [c] + Join(parts[1..], c)
  }

  lemma {:induction false} SplitJoin(parts: seq<string>, c: char)
    requires parts != []
    requires forall part | part in parts :: c !in part
    ensures Split(Join(parts, c), c) == parts
  {
    var s, first := Join(parts, c), parts[0];
    assert s[..|first|] == first && first in parts;
    IndexOfFirst(s, c, |first|);
    if |parts| > 1 {
      assert s[|first| + 1..] == Join(parts[1..], c);
      SplitJoin(parts[1..], c);
    }
  }

  function DigitChar(d: nat): (c: char)
    requires d < 10
    ensures '0' <= c <= '9' && (c as int - '0' as int) == d
  {
    ('0' as int + d) as char
  }

  predicate IsDigit(c: char) { '0' <= c <= '9' }

  function DigitValue(c: char): nat
    requires IsDigit(c)
  {
    c as int - '0' as int
  }

  /** strconv.Itoa on a non-negative number. */
  function Decimal(n: nat): (r: string)
    ensures r != "" && forall i | 0 <= i < |r| :: IsDigit(r[i])
  {
    if n < 10 then [DigitChar(n)] else Decimal(n / 10) + [DigitChar(n % 10)]
  }

  function ParseDecimal(s: string): nat
    requires forall i | 0 <= i < |s| :: IsDigit(s[i])
  {
    if s == "" then 0
    else 10 * ParseDecimal(s[..|s| - 1]) + DigitValue(s[|s| - 1])
  }

  lemma {:induction false} ParseDecimalDecimal(n: nat)
    ensures ParseDecimal(Decimal(n)) == n
  {
    if n >= 10 {
      ParseDecimalDecimal(n / 10);
      assert Decimal(n)[..|Decimal(n)| - 1] == Decimal(n / 10);
    } else {
      assert Decimal(n)[..0] == "";
    }
  }
}
