/** Actor names, the wire spelling of event and message ids, and the order on names.

    Ids are kept as the strings the log really carries: an event id is
    `<actor>:<seq>` and a message id is `m<decimal>`. The replayer reads message
    ids back with a lenient integer parser: a leading `+` and leading zeros are
    accepted, values above 64 bits are not. */
module Names {

  datatype Option<+T> = None | Some(value: T)

  type Name = string

  /** The synthetic world-line that external stimuli come from. */
  const WORLD: Name := "world"

  const U64_MAX: nat := 0xFFFF_FFFF_FFFF_FFFF

  // ---------------------------------------------------------------- decimals

  function DigitChar(d: nat): (c: char)
    requires d < 10
    ensures '0' <= c <= '9' && c as int - '0' as int == d
  {
    ('0' as int + d) as char
  }

  predicate IsDigit(c: char) { '0' <= c <= '9' }

  predicate AllDigits(s: string) { forall i | 0 <= i < |s| :: IsDigit(s[i]) }

  function Decimal(n: nat): (s: string)
    ensures s != "" && AllDigits(s)
  {
    if n < 10 then [DigitChar(n)] else Decimal(n / 10) + [DigitChar(n % 10)]
  }

  function DigitsValue(s: string): nat
    requires AllDigits(s)
  {
    if s == "" then 0
    else 10 * DigitsValue(s[..|s| - 1]) + (s[|s| - 1] as int - '0' as int)
  }

  /** Rust's `str::parse::<u64>`. */
  function ParseU64(s: string): Option<nat> {
    var d := if s != "" && s[0] == '+' then s[1..] else s;
    if d != "" && AllDigits(d) && DigitsValue(d) <= U64_MAX then Some(DigitsValue(d)) else None
  }

  lemma {:induction false} DecimalValue(n: nat)
    ensures DigitsValue(Decimal(n)) == n
  {
    if n < 10 {
    } else {
      DecimalValue(n / 10);
      var s := Decimal(n);
      assert s[..|s| - 1] == Decimal(n / 10);
    }
  }

  // ------------------------------------------------- what the numerals mean

  function Pow10(k: nat): (r: nat)
    ensures r >= 1
  {
    if k == 0 then 1 else 10 * Pow10(k - 1)
  }

  /** The sum of the digits, each times the power of ten of its place. */
  function PlaceSum(s: string): nat
    requires AllDigits(s)
  {
    if s == "" then 0 else (s[0] as int - '0' as int) * Pow10(|s| - 1) + PlaceSum(s[1..])
  }

  lemma {:induction false} PlaceSumAppend(s: string, c: char)
    requires AllDigits(s) && IsDigit(c)
    ensures PlaceSum(s + [c]) == 10 * PlaceSum(s) + (c as int - '0' as int)
  {
    hide Pow10;
    if s == "" {
      assert s + [c] == [c] && [c][1..] == "";
      PowersOfTen(0);
    } else {
      var t := s + [c];
      assert t[1..] == s[1..] + [c] && t[0] == s[0];
      PlaceSumAppend(s[1..], c);
      PowersOfTen(|s| - 1);
      TenTimes(s[0] as int - '0' as int, Pow10(|s| - 1));
    }
  }

  lemma PowersOfTen(k: nat)
    ensures Pow10(0) == 1 && Pow10(k + 1) == 10 * Pow10(k)
  {}

  lemma TenTimes(d: nat, p: nat)
    ensures d * (10 * p) == 10 * (d * p)
  {}

  /** A digit string is read in decimal notation. */
  lemma {:induction false} DigitsArePlaces(s: string)
    requires AllDigits(s)
    ensures DigitsValue(s) == PlaceSum(s)
  {
    if s != "" {
      var front := s[..|s| - 1];
      DigitsArePlaces(front);
      assert s == front + [s[|s| - 1]];
      PlaceSumAppend(front, s[|s| - 1]);
    }
  }

  /** A numeral is as long as decimal notation makes it, and its digits times their
      powers of ten sum to the number. */
  lemma {:induction false} DecimalNotation(n: nat)
    ensures var s := Decimal(n);
      PlaceSum(s) == n < Pow10(|s|) && (n > 0 ==> Pow10(|s| - 1) <= n)
  {
    DecimalValue(n);
    DigitsArePlaces(Decimal(n));
    if n < 10 {
      assert Pow10(1) == 10 * Pow10(0);
    } else {
      DecimalNotation(n / 10);
      var k := |Decimal(n / 10)|;
      assert Pow10(k + 1) == 10 * Pow10(k) && Pow10(k) == 10 * Pow10(k - 1);
    }
  }

  // --------------------------------------------------------------------- ids

  function EventId(actor: Name, seqNo: nat): string { actor + ":" + Decimal(seqNo) }

  function Mid(id: nat): string { "m" + Decimal(id) }

  function ParseMid(s: string): Option<nat> {
    if s != "" && s[0] == 'm' then ParseU64(s[1..]) else None
  }

  /** A message id drawn from a 64-bit counter is read back as itself; one beyond
      that width is not. */
  lemma ParseMidRoundTrip(id: nat)
    ensures ParseMid(Mid(id)) == if id <= U64_MAX then Some(id) else None
  {
    DecimalValue(id);
    var d := Decimal(id);
    assert Mid(id)[1..] == d;
    assert IsDigit(d[0]) && d[0] != '+';
  }

  lemma MidInjective(a: nat, b: nat)
    requires Mid(a) == Mid(b)
    ensures a == b
  {
    assert Mid(a)[1..] == Decimal(a) && Mid(b)[1..] == Decimal(b);
    DecimalValue(a);
    DecimalValue(b);
  }

  lemma EventIdSplits(a: Name, i: nat)
    ensures var s := EventId(a, i);
      && |a| < |s| && s[..|a|] == a && s[|a|] == ':' && s[|a| + 1..] == Decimal(i)
      && forall k | |a| < k < |s| :: s[k] != ':'
  {
    var s, x := EventId(a, i), Decimal(i);
    assert s == a + ([':'] + x);
    forall k | |a| < k < |s| ensures s[k] != ':' { assert s[k] == x[k - |a| - 1] && IsDigit(x[k - |a| - 1]); }
  }

  /** Event ids identify (actor, seq) even when actor names contain colons or digits. */
  lemma EventIdInjective(a: Name, i: nat, b: Name, j: nat)
    requires EventId(a, i) == EventId(b, j)
    ensures a == b && i == j
  {
    hide EventId, Decimal;
    EventIdSplits(a, i);
    EventIdSplits(b, j);
    DecimalValue(i);
    DecimalValue(j);
  }

  /** The parser is not injective: ids that a log may legally carry can collapse. */
  lemma ParseMidCollapses()
    ensures "m7" != "m07" && ParseMid("m7") == ParseMid("m07") == ParseMid("m+7") == Some(7)
  {
    assert "m7"[1..] == "7" && "m07"[1..] == "07" && "m+7"[1..] == "+7";
    assert "+7"[1..] == "7";
    assert DigitsValue("7") == 7 by { assert "7"[..0] == ""; }
    assert DigitsValue("07") == 7 by {
      assert "07"[..1] == "0";
      assert "0"[..0] == "";
    }
  }

  /** What the reader accepts: an optional plus and at least one digit after the `m`,
      of a decimal value within 64 bits; and it reads that value. */
  lemma ParseMidExact(s: string, v: nat)
    ensures ParseMid(s) == Some(v) <==>
            exists d: string ::
              && (s == "m" + d || s == "m+" + d) && d != "" && (forall k | 0 <= k < |d| :: '0' <= d[k] <= '9')
              && AllDigits(d) && PlaceSum(d) == v <= 18446744073709551615
  {
    hide DigitsValue, PlaceSum;
    if s != "" && s[0] == 'm' {
      var t := s[1..];
      var d := if t != "" && t[0] == '+' then t[1..] else t;
      assert s == "m" + t && (d != t ==> s == "m+" + d);
      if AllDigits(d) { DigitsArePlaces(d); }
      forall e: string | s == "m" + e || s == "m+" + e ensures e == t || "+" + e == t {
        if s == "m" + e { assert s[1..] == e; } else { assert s == "m" + ("+" + e) && s[1..] == "+" + e; }
      }
    }
  }

  /** The ids of a ninth and a tenth event and message. */
  lemma NineAndTen(a: Name)
    ensures EventId(a, 9) == a + ":9" && EventId(a, 10) == a + ":10" && Mid(9) == "m9" && Mid(10) == "m10"
    ensures ParseMid("m10") == Some(10)
  {
    assert Decimal(10) == Decimal(1) + [DigitChar(0)] == "10";
    ParseMidRoundTrip(10);
  }

  // ------------------------------------------------------------ order on names

  /** Lexicographic order by code point, as on Rust strings. */
  predicate NameLess(a: Name, b: Name) {
    b != "" && (a == "" || a[0] < b[0] || (a[0] == b[0] && NameLess(a[1..], b[1..])))
  }

  /** `a` is a proper beginning of `b`, or has the smaller character where they first
      differ. */
  ghost predicate ComesFirst(a: Name, b: Name) {
    a < b || exists k: nat :: SmallerAt(a, b, k)
  }

  ghost predicate SmallerAt(a: Name, b: Name, k: nat) {
    k < |a| && k < |b| && a[..k] == b[..k] && a[k] < b[k]
  }

  lemma {:induction false} NameOrder(a: Name, b: Name)
    ensures NameLess(a, b) <==> ComesFirst(a, b)
  {
    if a != "" && b != "" {
      if a[0] == b[0] {
        NameOrder(a[1..], b[1..]);
        OneStepDown(a, b);
      } else if a[0] < b[0] {
        assert SmallerAt(a, b, 0);
      } else {
        forall k: nat | 0 < k < |a| && k < |b| ensures a[..k] != b[..k] {
          assert a[..k][0] == a[0] && b[..k][0] == b[0];
        }
      }
    }
  }

  lemma OneStepDown(a: Name, b: Name)
    requires a != "" && b != "" && a[0] == b[0]
    ensures ComesFirst(a, b) <==> ComesFirst(a[1..], b[1..])
  {
    var c, d := a[1..], b[1..];
    assert a == [a[0]] + c && b == [b[0]] + d;
    forall k: nat ensures SmallerAt(c, d, k) <==> SmallerAt(a, b, k + 1) {
      if k < |c| && k < |d| { assert a[..k + 1] == [a[0]] + c[..k] && b[..k + 1] == [b[0]] + d[..k]; }
    }
    if k: nat :| SmallerAt(a, b, k) { assert SmallerAt(c, d, k - 1) by { assert SmallerAt(a, b, (k - 1) + 1); } }
    if k: nat :| SmallerAt(c, d, k) { assert SmallerAt(a, b, k + 1); }
  }

  lemma {:induction false} NameLessIrreflexive(a: Name)
    ensures !NameLess(a, a)
  {
    if a != "" { NameLessIrreflexive(a[1..]); }
  }

  lemma {:induction false} NameLessTransitive(a: Name, b: Name, c: Name)
    requires NameLess(a, b) && NameLess(b, c)
    ensures NameLess(a, c)
  {
    if a != "" && a[0] == b[0] == c[0] { NameLessTransitive(a[1..], b[1..], c[1..]); }
  }

  lemma {:induction false} NameLessTotal(a: Name, b: Name)
    ensures a == b || NameLess(a, b) || NameLess(b, a)
  {
    if a != "" && b != "" && a[0] == b[0] {
      NameLessTotal(a[1..], b[1..]);
      assert a == [a[0]] + a[1..] && b == [b[0]] + b[1..];
    }
  }

  ghost predicate IsLeastName(a: Name, s: set<Name>) {
    a in s && forall b | b in s :: a == b || NameLess(a, b)
  }

  lemma {:induction false} LeastNameExists(s: set<Name>)
    requires s != {}
    ensures exists a :: IsLeastName(a, s)
    decreases |s|
  {
    var a :| a in s;
    var rest := s - {a};
    if rest == {} {
      assert s == {a};
      assert IsLeastName(a, s);
    } else {
      LeastNameExists(rest);
      var b :| IsLeastName(b, rest);
      NameLessTotal(a, b);
      if NameLess(b, a) {
        assert IsLeastName(b, s);
      } else {
        forall c | c in s ensures a == c || NameLess(a, c) {
          if c != a && c != b { NameLessTransitive(a, b, c); }
        }
        assert IsLeastName(a, s);
      }
    }
  }

  lemma LeastNameUnique(a: Name, b: Name, s: set<Name>)
    requires IsLeastName(a, s) && IsLeastName(b, s)
    ensures a == b
  {
    if a != b {
      NameLessTransitive(a, b, a);
      NameLessIrreflexive(a);
    }
  }

  /** The first key of an ordered map or of a sorted name list. */
  ghost function LeastName(s: set<Name>): (a: Name)
    requires s != {}
    ensures IsLeastName(a, s)
  {
    LeastNameExists(s);
    var a :| IsLeastName(a, s);
    a
  }

  ghost predicate StrictlySorted(ks: seq<Name>) {
    forall i, j | 0 <= i < j < |ks| :: NameLess(ks[i], ks[j])
  }

  /** The key list an ordered map iterates over. */
  method SortedKeys(s: set<Name>) returns (ks: seq<Name>)
    ensures StrictlySorted(ks)
    ensures forall k :: k in ks <==> k in s
  {
    ks := [];
    var rest := s;
    while rest != {}
      invariant rest <= s
      invariant forall k :: k in ks <==> k in s - rest
      invariant StrictlySorted(ks)
      invariant forall k, r | k in ks && r in rest :: NameLess(k, r)
      decreases |rest|
    {
      ghost var least := LeastName(rest);
      assert least in rest && forall b | b in rest :: least == b || NameLess(least, b);
      var k :| k in rest && forall b | b in rest :: k == b || NameLess(k, b);
      ks := ks + [k];
      rest := rest - {k};
    }
  }
}
