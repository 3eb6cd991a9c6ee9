/** The string operations the modelled code uses: `in`, `str.replace(p, "")`,
    `str.split(c)`, `",".join`, `lower`/`upper`, and decimal digits. */
module Strings {

  import opened Common

  /** Python's `p in s`. */
  predicate Contains(s: string, p: string)
    decreases |s|
  {
    |p| <= |s| && (s[..|p|] == p || Contains(s[1..], p))
  }

  /** `s` holds `p` starting at index `i`. */
  predicate OccursAt(s: string, p: string, i: int)
  {
    0 <= i && i + |p| <= |s| && s[i..i + |p|] == p
  }

  /** `Contains` agrees with the positional definition of a substring. */
  lemma {:induction false} ContainsIffOccurs(s: string, p: string)
    ensures Contains(s, p) <==> exists i :: OccursAt(s, p, i)
    decreases |s|
  {
    if |p| <= |s| {
      if s[..|p|] == p {
        assert OccursAt(s, p, 0);
      } else {
        if |s| > 0 {
          ContainsIffOccurs(s[1..], p);
          if Contains(s[1..], p) {
            var i :| OccursAt(s[1..], p, i);
            assert s[1..][i..i + |p|] == s[i + 1..i + 1 + |p|];
            assert OccursAt(s, p, i + 1);
          }
          if exists i :: OccursAt(s, p, i) {
            var i :| OccursAt(s, p, i);
            assert i != 0 by {
              if i == 0 {
                assert false;
              }
            }
            assert s[1..][i - 1..i - 1 + |p|] == s[i..i + |p|];
            assert OccursAt(s[1..], p, i - 1);
          }
        }
      }
    } else {
      assert forall i :: !OccursAt(s, p, i);
    }
  }

  /** A pattern whose first character never occurs in `s` does not occur in `s`. */
  lemma {:induction false} AbsentFirstChar(s: string, p: string)
    requires |p| > 0 && p[0] !in s
    ensures !Contains(s, p)
    decreases |s|
  {
    if |p| <= |s| {
      assert s[..|p|][0] == s[0];
      AbsentFirstChar(s[1..], p);
    }
  }

  /** Python's `s.replace(p, "")`: every non-overlapping occurrence of `p`,
      scanning left to right, is deleted. */
  function RemoveAll(s: string, p: string): (r: string)
    requires |p| > 0
    ensures |r| <= |s|
    decreases |s|
  {
    if |s| < |p| then s
    else if s[..|p|] == p then RemoveAll(s[|p|..], p)
    else [s[0]] + RemoveAll(s[1..], p)
  }

  /** Removing a pattern that does not occur changes nothing. */
  lemma {:induction false} RemoveAbsent(s: string, p: string)
    requires |p| > 0 && !Contains(s, p)
    ensures RemoveAll(s, p) == s
    decreases |s|
  {
    if |s| >= |p| {
      RemoveAbsent(s[1..], p);
      assert [s[0]] + s[1..] == s;
    }
  }

  /** A prefix that does not hold the pattern's first character neither creates
      an occurrence nor is touched by the removal. */
  lemma {:induction false} ContainsAfter(a: string, b: string, p: string)
    requires |p| > 0 && p[0] !in a
    ensures Contains(a + b, p) <==> Contains(b, p)
    ensures RemoveAll(a + b, p) == a + RemoveAll(b, p)
    decreases |a|
  {
    if a != [] {
      assert (a + b)[1..] == a[1..] + b;
      if |p| <= |a + b| {
        assert (a + b)[..|p|][0] == a[0];
      }
      ContainsAfter(a[1..], b, p);
      assert [a[0]] + a[1..] == a;
    } else {
      assert a + b == b;
    }
  }

  /** `s.split(c)[0]`: the text before the first `c`, or all of `s`. */
  function Before(s: string, c: char): (r: string)
    ensures |r| <= |s| && r == s[..|r|]
    ensures c !in r
    ensures |r| < |s| ==> s[|r|] == c
  {
    if s == [] then []
    else if s[0] == c then []
    else [s[0]] + Before(s[1..], c)
  }

  /** Python's `s.split(c)`. */
  function Split(s: string, c: char): (parts: seq<string>)
    ensures |parts| >= 1 && parts[0] == Before(s, c)
    ensures forall i | 0 <= i < |parts| :: c !in parts[i]
    decreases |s|
  {
    var head := Before(s, c);
    if |head| == |s| then [s] else [head] + Split(s[|head| + 1..], c)
  }

  /** Python's `sep.join(parts)`. */
  function Join(parts: seq<string>, sep: string): string
  {
    if |parts| == 0 then ""
    else if |parts| == 1 then parts[0]
    else parts[0] + sep + Join(parts[1..], sep)
  }

  /** Joining the pieces of a split with the same separator restores the text. */
  lemma {:induction false} JoinSplit(s: string, c: char)
    ensures Join(Split(s, c), [c]) == s
    decreases |s|
  {
    var head := Before(s, c);
    if |head| < |s| {
      var rest := s[|head| + 1..];
      JoinSplit(rest, c);
      var tail := Split(rest, c);
      assert Split(s, c) == [head] + tail;
      assert s == head + [c] + rest;
    }
  }

  /** Splitting a join of separator-free pieces gives the pieces back. */
  lemma {:induction false} SplitJoin(parts: seq<string>, c: char)
    requires |parts| >= 1
    requires forall i | 0 <= i < |parts| :: c !in parts[i]
    ensures Split(Join(parts, [c]), c) == parts
    decreases |parts|
  {
    var s := Join(parts, [c]);
    if |parts| == 1 {
      BeforeWhole(parts[0], c);
    } else {
      var rest := Join(parts[1..], [c]);
      assert s == parts[0] + ([c] + rest);
      BeforeStops(parts[0], c, [c] + rest);
      assert |parts[0]| < |s|;
      assert s[|parts[0]| + 1..] == rest;
      assert Split(s, c) == [parts[0]] + Split(rest, c);
      SplitJoin(parts[1..], c);
      assert [parts[0]] + parts[1..] == parts;
    }
  }

  lemma {:induction false} BeforeWhole(s: string, c: char)
    requires c !in s
    ensures Before(s, c) == s
  {
    if s != [] {
      BeforeWhole(s[1..], c);
      assert [s[0]] + s[1..] == s;
    }
  }

  lemma {:induction false} BeforeStops(a: string, c: char, b: string)
    requires c !in a && |b| > 0 && b[0] == c
    ensures Before(a + b, c) == a
  {
    if a != [] {
      assert (a + b)[1..] == a[1..] + b;
      BeforeStops(a[1..], c, b);
      assert [a[0]] + a[1..] == a;
    } else {
      assert a + b == b;
    }
  }

  function LowerChar(ch: char): char
  {
    if 'A' <= ch <= 'Z' then (ch as int + 32) as char else ch
  }

  function UpperChar(ch: char): char
  {
    if 'a' <= ch <= 'z' then (ch as int - 32) as char else ch
  }

  /** `s.lower()`, on ASCII letters. */
  function Lower(s: string): (r: string)
    ensures |r| == |s|
    ensures forall i | 0 <= i < |s| :: !('A' <= r[i] <= 'Z')
  {
    seq(|s|, i requires 0 <= i < |s| => LowerChar(s[i]))
  }

  /** `s.upper()`, on ASCII letters. */
  function Upper(s: string): (r: string)
    ensures |r| == |s|
    ensures forall i | 0 <= i < |s| :: !('a' <= r[i] <= 'z')
  {
    seq(|s|, i requires 0 <= i < |s| => UpperChar(s[i]))
  }

  predicate IsDigit(ch: char)
  {
    '0' <= ch <= '9'
  }

  predicate AllDigits(s: string)
  {
    forall i | 0 <= i < |s| :: IsDigit(s[i])
  }

  /** The number a string of decimal digits denotes. */
  function DigitsValue(s: string): nat
    requires AllDigits(s)
  {
    if s == [] then 0 else DigitsValue(s[..|s| - 1]) * 10 + (s[|s| - 1] as int - '0' as int)
  }

  /** The decimal text of `n`, left-padded with zeros to at least `width` digits. */
  function Padded(n: nat, width: nat): (r: string)
    ensures AllDigits(r) && |r| >= width && |r| >= 1
    ensures DigitsValue(r) == n
    decreases n + width
  {
    var last := [('0' as int + n % 10) as char];
    if n < 10 && width <= 1 then last
    else
      var front := Padded(n / 10, if width > 0 then width - 1 else 0);
      assert (front + last)[..|front + last| - 1] == front;
      front + last
  }

  /** The number two decimal digits denote. */
  lemma TwoDigitsValue(s: string)
    requires |s| == 2 && AllDigits(s)
    ensures DigitsValue(s) == (s[0] as int - '0' as int) * 10 + (s[1] as int - '0' as int)
  {
    var front := s[..1];
    assert front[..0] == [] && front[0] == s[0];
    assert DigitsValue(front) == s[0] as int - '0' as int;
  }

  /** Digit strings of equal length denote the same number only if they are equal. */
  lemma {:induction false} DigitsInjective(a: string, b: string)
    requires AllDigits(a) && AllDigits(b) && |a| == |b|
    requires DigitsValue(a) == DigitsValue(b)
    ensures a == b
    decreases |a|
  {
    if a != [] {
      var n := |a| - 1;
      assert a[..n] + [a[n]] == a;
      assert b[..n] + [b[n]] == b;
      DigitsInjective(a[..n], b[..n]);
    }
  }

  function Pow10(w: nat): (r: nat)
    ensures r >= 1
  {
    if w == 0 then 1 else 10 * Pow10(w - 1)
  }

  /** A number below 10^width is padded to exactly `width` digits. */
  lemma {:induction false} PaddedWidth(n: nat, width: nat)
    requires width >= 1 && n < Pow10(width)
    ensures |Padded(n, width)| == width
    decreases width
  {
    if !(n < 10 && width <= 1) {
      PaddedWidth(n / 10, width - 1);
    }
  }

  /** Padding to a width the number already fills adds nothing: the text is
      `str(n)`. */
  lemma {:induction false} PaddedFilled(n: nat, width: nat)
    requires width >= 1 && Pow10(width - 1) <= n
    ensures Padded(n, width) == Padded(n, 0)
    decreases width
  {
    if width > 1 {
      assert n >= 10 by {
        PowAtLeastTen(width - 1);
      }
      PaddedFilled(n / 10, width - 1);
    }
  }

  lemma {:induction false} PowAtLeastTen(w: nat)
    requires w >= 1
    ensures Pow10(w) >= 10
  {
    if w > 1 {
      PowAtLeastTen(w - 1);
    }
  }

  /** Python's `int(s)` on an optionally signed run of decimal digits. */
  function ParseInt(s: string): (r: Option<int>)
  {
    if |s| > 0 && (s[0] == '-' || s[0] == '+') then
      (if |s| > 1 && AllDigits(s[1..]) then
         var magnitude: int := DigitsValue(s[1..]);
         Some(if s[0] == '-' then -magnitude else magnitude)
       else None)
    else if |s| > 0 && AllDigits(s) then Some(DigitsValue(s))
    else None
  }

  /** `str(n)` for a whole number: its decimal digits, after a minus sign
      when it is negative. */
  function IntText(n: int): string
  {
    (if n < 0 then "-" else "") + Padded(if n < 0 then -n else n, 1)
  }

  /** `int(str(n)) == n`. */
  lemma ParseIntText(n: int)
    ensures ParseInt(IntText(n)) == Some(n)
  {
    var digits := Padded(if n < 0 then -n else n, 1);
    var text := IntText(n);
    assert IsDigit(digits[0]);
    if n < 0 {
      assert text[0] == '-' && |text| > 1 && text[1..] == digits;
    } else {
      assert text == digits;
    }
  }

  /** The value of unsigned decimal text: digits, at most one point, and at
      least one digit on either side of it ("12", "1.5", "1.", ".5"). */
  function UnsignedDecimal(s: string): Option<real>
  {
    var whole := Before(s, '.');
    var frac := if |whole| < |s| then s[|whole| + 1..] else "";
    if AllDigits(whole) && AllDigits(frac) && |whole| + |frac| > 0 then
      Some(DigitsValue(whole) as real + DigitsValue(frac) as real / Pow10(|frac|) as real)
    else None
  }

  /** Python's `float(s)` on optionally signed decimal text. */
  function ParseDecimal(s: string): (r: Option<real>)
  {
    if |s| > 0 && (s[0] == '-' || s[0] == '+') then
      (match UnsignedDecimal(s[1..])
       case Some(x) => Some(if s[0] == '-' then -x else x)
       case None => None)
    else UnsignedDecimal(s)
  }

  /** Text `int()` reads is read by `float()` as the same number. */
  lemma ParseDecimalAgreesWithInt(s: string)
    requires ParseInt(s).Some?
    ensures ParseDecimal(s) == Some(ParseInt(s).value as real)
  {
    var body := if s[0] == '-' || s[0] == '+' then s[1..] else s;
    assert '.' !in body;
    BeforeWhole(body, '.');
  }

  /** Python's name of the type of `v`, as its error messages show it. */
  function TypeName(v: Value): string
  {
    match v
    case Null => "NoneType"
    case NaN => "float"
    case Bool(_) => "bool"
    case Int(_) => "int"
    case Float(_) => "float"
    case Str(_) => "str"
    case DateVal(_) => "datetime.date"
    case List(_) => "list"
    case Dict(_) => "dict"
  }

  /** The TypeError of `q in v` for a value that is not iterable. */
  function NotIterable(v: Value): Error
  {
    TypeError("argument of type '" + TypeName(v) + "' is not iterable")
  }

  /** Python's `q in v` for a text `q`: a substring test on text, an element
      test on a list and a key test on a dict; any other value is not
      iterable and raises TypeError. */
  function PyIn(q: string, v: Value): (r: Result<bool>)
    ensures v.Str? ==> r == Ok(Contains(v.s, q))
    ensures v.List? ==> r == Ok(Str(q) in v.items)
    ensures v.Dict? ==> r == Ok(q in v.entries)
    ensures r.Err? <==> !(v.Str? || v.List? || v.Dict?)
    ensures r.Err? ==> r.error == NotIterable(v)
  {
    match v
    case Str(s) => Ok(Contains(s, q))
    case List(items) => Ok(Str(q) in items)
    case Dict(entries) => Ok(q in entries)
    case _ => Err(NotIterable(v))
  }
}
