/** Strings in Go's byte order, sorted sets of them, decimal numbers and splitting on a separator. */
module Strings {
  import opened Base

  /** Lexicographic order, the order of sort.Strings. */
  predicate Leq(a: string, b: string)
  {
    a == "" || (b != "" && (a[0] < b[0] || (a[0] == b[0] && Leq(a[1..], b[1..]))))
  }

  lemma LeqTotal(a: string, b: string)
    ensures Leq(a, b) || Leq(b, a)
  {
  }

  lemma LeqAntisymmetric(a: string, b: string)
    requires Leq(a, b) && Leq(b, a)
    ensures a == b
  {
    if a != "" {
      LeqAntisymmetric(a[1..], b[1..]);
      assert a == [a[0]] + a[1..] && b == [b[0]] + b[1..];
    }
  }

  lemma LeqTransitive(a: string, b: string, c: string)
    requires Leq(a, b) && Leq(b, c)
    ensures Leq(a, c)
  {
  }

  predicate IsLeast(x: string, s: set<string>)
  {
    x in s && forall y | y in s :: Leq(x, y)
  }

  lemma LeastExists(s: set<string>)
    requires s != {}
    ensures exists x :: IsLeast(x, s)
  {
    var y :| y in s;
    if s == {y} {
      LeqTotal(y, y);
      assert IsLeast(y, s);
    } else {
      LeastExists(s - {y});
      var x :| IsLeast(x, s - {y});
      LeqTotal(x, y);
      LeqTotal(y, y);
      forall z | z in s ensures Leq(if Leq(x, y) then x else y, z) {
        if !Leq(x, y) && z != y {
          LeqTransitive(y, x, z);
        }
      }
      assert IsLeast(if Leq(x, y) then x else y, s);
    }
  }

  function Least(s: set<string>): (x: string)
    requires s != {}
    ensures IsLeast(x, s)
  {
    LeastExists(s);
    assert forall a, b | IsLeast(a, s) && IsLeast(b, s) :: a == b by {
      forall a, b | IsLeast(a, s) && IsLeast(b, s) ensures a == b {
        LeqAntisymmetric(a, b);
      }
    }
    var x :| IsLeast(x, s); x
  }

  predicate Ascending(r: seq<string>)
  {
    forall i, j | 0 <= i < j < |r| :: Leq(r[i], r[j]) && r[i] != r[j]
  }

  function Elements<T(!new)>(r: seq<T>): (s: set<T>)
    ensures forall x :: x in s <==> x in r
  {
    set x | x in r
  }

  /** The elements of a set in ascending order: what collecting map keys and sort.Strings produce. */
  function Sorted(s: set<string>): (r: seq<string>)
    ensures Ascending(r)
    ensures Elements(r) == s
    ensures |r| == |s|
  {
    if s == {} then []
    else
      var x := Least(s);
      var rest := Sorted(s - {x});
      assert forall k | 0 <= k < |rest| :: rest[k] in Elements(rest);
      [x] + rest
  }

  /** A set has one ascending listing, so equal listings and equal sets are the same thing. */
  lemma {:induction false} AscendingUnique(a: seq<string>, b: seq<string>)
    requires Ascending(a) && Ascending(b)
    requires Elements(a) == Elements(b)
    ensures a == b
  {
    assert b != [] ==> b[0] in Elements(b);
    if a == [] {
      assert b == [];
    } else {
      assert a[0] in Elements(a);
      var j :| 0 <= j < |b| && b[j] == a[0];
      assert b[0] in Elements(b);
      var i :| 0 <= i < |a| && a[i] == b[0];
      if i != 0 && j != 0 {
        LeqAntisymmetric(a[0], b[0]);
      }
      assert a[0] == b[0];
      forall x ensures x in a[1..] <==> x in b[1..] {
        assert x in a <==> x in b by {
          assert x in Elements(a) <==> x in Elements(b);
        }
        assert x in a <==> x == a[0] || x in a[1..];
        assert x in b <==> x == b[0] || x in b[1..];
      }
      AscendingUnique(a[1..], b[1..]);
      assert a == [a[0]] + a[1..] && b == [b[0]] + b[1..];
    }
  }

  // --- decimal numbers -------------------------------------------------------

  function Digit(d: nat): (c: char)
    requires d < 10
  {
    "0123456789"[d]
  }

  /** strconv.Itoa on natural numbers. */
  function Digits(n: nat): (s: string)
    ensures s != ""
    ensures forall c | c in s :: '0' <= c <= '9'
  {
    if n < 10 then [Digit(n)] else Digits(n / 10) + [Digit(n % 10)]
  }

  function Itoa(n: int): (s: string)
    ensures forall c | c in s :: c == '-' || '0' <= c <= '9'
    ensures s != ""
  {
    if n < 0 then "-" + Digits(-n) else Digits(n)
  }

  function DigitValue(c: char): (d: Option<nat>)
    ensures d.Some? ==> d.value < 10
  {
    if '0' <= c <= '9' then Some((c as int) - ('0' as int)) else None
  }

  function ParseDigits(s: string): Option<nat>
  {
    if s == "" then None
    else
      var d := DigitValue(s[|s| - 1]);
      if d.None? then None
      else if |s| == 1 then Some(d.value)
      else
        var high := ParseDigits(s[..|s| - 1]);
        if high.None? then None else Some(10 * high.value + d.value)
  }

  /** strconv.Atoi, without its width limit and its leading plus sign. */
  function Atoi(s: string): Option<int>
  {
    if s != "" && s[0] == '-' then
      var d := ParseDigits(s[1..]);
      if d.None? then None else
        var n: int := 0 - d.value;
        Some(n)
    else
      var d := ParseDigits(s);
      if d.None? then None else Some(d.value)
  }

  lemma {:induction false} ParseDigitsOfDigits(n: nat)
    ensures ParseDigits(Digits(n)) == Some(n)
  {
    if n >= 10 {
      ParseDigitsOfDigits(n / 10);
      var s := Digits(n);
      assert s[..|s| - 1] == Digits(n / 10);
    }
  }

  lemma AtoiOfItoa(n: int)
    ensures Atoi(Itoa(n)) == Some(n)
  {
    hide Digits, ParseDigits;
    if n < 0 {
      ParseDigitsOfDigits(-n);
      assert Itoa(n)[1..] == Digits(-n);
    } else {
      ParseDigitsOfDigits(n);
      assert Digits(n)[0] in Digits(n);
    }
  }

  lemma ItoaInjective(a: int, b: int)
    requires Itoa(a) == Itoa(b)
    ensures a == b
  {
    AtoiOfItoa(a);
    AtoiOfItoa(b);
  }

  // --- letter case ------------------------------------------------------------

  function LowerChar(c: char): char
  {
    if 'A' <= c <= 'Z' then ((c as int) + 32) as char else c
  }

  /** strings.ToLower on ASCII text. */
  function ToLower(s: string): (r: string)
    ensures |r| == |s|
  {
    seq(|s|, i requires 0 <= i < |s| => LowerChar(s[i]))
  }

  function UpperChar(c: char): char
  {
    if 'a' <= c <= 'z' then ((c as int) - 32) as char else c
  }

  /** strings.ToUpper on ASCII text. */
  function ToUpper(s: string): (r: string)
    ensures |r| == |s|
  {
    seq(|s|, i requires 0 <= i < |s| => UpperChar(s[i]))
  }

  predicate Blank(c: char)
  {
    c == ' ' || '\t' <= c <= '\r'
  }

  /** strings.TrimSpace on ASCII text. */
  function TrimSpace(s: string): string
  {
    if s == "" then s
    else if Blank(s[0]) then TrimSpace(s[1..])
    else if Blank(s[|s| - 1]) then TrimSpace(s[..|s| - 1])
    else s
  }

  // --- separators ------------------------------------------------------------

  /** Two texts cut at their first separator agree piece by piece when they agree as a whole. */
  lemma {:induction false} CutAtSeparator(a: string, b: string, c: string, d: string, sep: char)
    requires sep !in a && sep !in c
    requires a + [sep] + b == c + [sep] + d
    ensures a == c && b == d
  {
    var left, right := a + [sep] + b, c + [sep] + d;
    assert left[|a|] == sep && right[|c|] == sep;
    assert forall i | 0 <= i < |a| :: left[i] == a[i] && a[i] != sep;
    assert forall i | 0 <= i < |c| :: right[i] == c[i] && c[i] != sep;
    assert |a| == |c|;
    assert left[..|a|] == a && right[..|c|] == c;
    assert left[|a| + 1..] == b && right[|c| + 1..] == d;
  }

  /** strings.Join for a one-character separator. */
  function Join(parts: seq<string>, sep: char): string
  {
    if parts == [] then ""
    else if |parts| == 1 then parts[0]
    else parts[0] + [sep] + Join(parts[1..], sep)
  }

  function IndexOf(s: string, sep: char): (i: nat)
    ensures i <= |s|
    ensures sep !in s[..i]
    ensures i < |s| ==> s[i] == sep
  {
    if s == "" || s[0] == sep then 0
    else
      var i := IndexOf(s[1..], sep);
      assert s[..i + 1] == [s[0]] + s[1..][..i];
      i + 1
  }

  /** strings.Split for a one-character separator. */
  function Split(s: string, sep: char): (parts: seq<string>)
    ensures parts != []
    ensures forall p | p in parts :: sep !in p
    decreases |s|
  {
    var i := IndexOf(s, sep);
    if i == |s| then
      assert s[..i] == s;
      [s]
    else [s[..i]] + Split(s[i + 1..], sep)
  }

  lemma {:induction false} SplitOfJoin(parts: seq<string>, sep: char)
    requires parts != []
    requires forall p | p in parts :: sep !in p
    ensures Split(Join(parts, sep), sep) == parts
  {
    var head := parts[0];
    assert head in parts;
    if |parts| == 1 {
      IndexOfWithout(head, "", sep, false);
    } else {
      var rest := Join(parts[1..], sep);
      SplitOfJoin(parts[1..], sep);
      IndexOfWithout(head, rest, sep, true);
      var whole := head + [sep] + rest;
      assert whole[..|head|] == head && whole[|head| + 1..] == rest;
    }
  }

  lemma IndexOfWithout(head: string, rest: string, sep: char, more: bool)
    requires sep !in head
    ensures IndexOf(if more then head + [sep] + rest else head, sep) == |head|
  {
    var whole := if more then head + [sep] + rest else head;
    var i := IndexOf(whole, sep);
    assert forall k | 0 <= k < |head| :: whole[k] == head[k] && head[k] != sep;
    assert more ==> whole[|head|] == sep;
    assert forall k | 0 <= k < i :: whole[k] == whole[..i][k] && whole[..i][k] != sep;
  }
}
