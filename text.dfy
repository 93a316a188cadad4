/** String helpers shared by the storefront model: the few JavaScript string
    operations the core relies on (`replace(/\D/g, '')`, `toLowerCase`,
    `includes`, `startsWith`, `join`, `split`), each stated on `seq<char>`. */
module Text {

  datatype Option<T> = None | Some(value: T)

  /** JavaScript truthiness of an optional string (`null`/`undefined` are
      `None`): present and non-empty. */
  predicate Truthy(v: Option<string>)
  {
    v.Some? && v.value != ""
  }

  // ---------------------------------------------------------------------------
  // Digits
  // ---------------------------------------------------------------------------

  predicate IsDigit(c: char) { '0' <= c <= '9' }

  predicate AllDigits(s: string) { forall i | 0 <= i < |s| :: IsDigit(s[i]) }

  /** The positions of `s` that hold a decimal digit. */
  ghost function DigitIndices(s: string): set<int>
  {
    set i | 0 <= i < |s| && IsDigit(s[i])
  }

  /** `s.replace(/\D/g, '')`: the digits of `s`, in order. */
  function DigitsOf(s: string): (r: string)
    ensures AllDigits(r)
    ensures |r| <= |s|
  {
    if s == [] then []
    else (if IsDigit(s[0]) then [s[0]] else []) + DigitsOf(s[1..])
  }

  lemma {:induction false} DigitsOfAppend(a: string, b: string)
    ensures DigitsOf(a + b) == DigitsOf(a) + DigitsOf(b)
  {
    if a == [] {
      assert a + b == b;
    } else {
      assert (a + b)[1..] == a[1..] + b;
      DigitsOfAppend(a[1..], b);
    }
  }

  /** Stripping keeps every digit: the length of `DigitsOf(s)` is the number
      of positions of `s` that hold a digit. */
  lemma {:induction false} DigitsOfCountsDigits(s: string)
    ensures |DigitsOf(s)| == |DigitIndices(s)|
  {
    if s == [] {
      assert DigitIndices(s) == {};
    } else {
      var t, c := s[..|s| - 1], s[|s| - 1];
      assert s == t + [c];
      DigitsOfCountsDigits(t);
      DigitsOfAppend(t, [c]);
      assert DigitsOf([c]) == if IsDigit(c) then [c] else [] by {
        assert [c][1..] == [];
      }
      if IsDigit(c) {
        assert DigitIndices(s) == DigitIndices(t) + {|t|};
      } else {
        assert DigitIndices(s) == DigitIndices(t);
      }
    }
  }

  /** A string of digits is left alone by stripping, and stripping is idempotent. */
  lemma {:induction false} DigitsOfFixesDigits(s: string)
    requires AllDigits(s)
    ensures DigitsOf(s) == s
  {
    if s != [] {
      DigitsOfFixesDigits(s[1..]);
    }
  }

  // ---------------------------------------------------------------------------
  // Case
  // ---------------------------------------------------------------------------

  /** `toLowerCase` on one character, for the ASCII letters. */
  function LowerChar(c: char): char
  {
    if 'A' <= c <= 'Z' then (c as int + 32) as char else c
  }

  function Lower(s: string): (r: string)
    ensures |r| == |s|
    ensures forall i | 0 <= i < |s| :: r[i] == LowerChar(s[i])
  {
    seq(|s|, i requires 0 <= i < |s| => LowerChar(s[i]))
  }

  lemma LowerIdempotent(s: string)
    ensures Lower(Lower(s)) == Lower(s)
  {
    assert forall i | 0 <= i < |s| :: LowerChar(LowerChar(s[i])) == LowerChar(s[i]);
  }

  // ---------------------------------------------------------------------------
  // includes / startsWith
  // ---------------------------------------------------------------------------

  predicate StartsWith(s: string, prefix: string)
  {
    |prefix| <= |s| && s[..|prefix|] == prefix
  }

  /** `needle` sits in `hay` at position `i`. */
  ghost predicate OccursAt(hay: string, needle: string, i: int)
  {
    0 <= i && i + |needle| <= |hay| && hay[i..i + |needle|] == needle
  }

  /** `hay.includes(needle)`, searched left to right. */
  function Contains(hay: string, needle: string): bool
    decreases |hay|
  {
    StartsWith(hay, needle) || (|hay| > 0 && Contains(hay[1..], needle))
  }

  /** `includes` holds exactly when the needle occurs at some position. */
  lemma {:induction false} ContainsIffOccurs(hay: string, needle: string)
    ensures Contains(hay, needle) <==> exists i :: OccursAt(hay, needle, i)
    decreases |hay|
  {
    if StartsWith(hay, needle) {
      assert OccursAt(hay, needle, 0);
    } else if |hay| > 0 {
      ContainsIffOccurs(hay[1..], needle);
      forall i | OccursAt(hay[1..], needle, i)
        ensures OccursAt(hay, needle, i + 1)
      {
        assert hay[1..][i..i + |needle|] == hay[i + 1..i + 1 + |needle|];
      }
      forall i | OccursAt(hay, needle, i)
        ensures i > 0 && OccursAt(hay[1..], needle, i - 1)
      {
        assert hay[i..i + |needle|] == hay[..|needle|] || i > 0;
        assert hay[1..][i - 1..i - 1 + |needle|] == hay[i..i + |needle|];
      }
    }
  }

  /** Every string includes the empty string. */
  lemma ContainsEmpty(hay: string)
    ensures Contains(hay, "")
  {
  }

  // ---------------------------------------------------------------------------
  // join / split
  // ---------------------------------------------------------------------------

  /** `parts.join(sep)`. */
  function Join(parts: seq<string>, sep: string): string
  {
    if |parts| == 0 then ""
    else if |parts| == 1 then parts[0]
    else parts[0] + sep + Join(parts[1..], sep)
  }

  /** `s.split(sep)` for a non-empty separator: the pieces between the
      occurrences of `sep`, scanning left to right. */
  function Split(s: string, sep: string): (r: seq<string>)
    requires sep != ""
    ensures |r| >= 1
    decreases |s|
  {
    if s == [] then [""]
    else if StartsWith(s, sep) then [""] + Split(s[|sep|..], sep)
    else
      var rest := Split(s[1..], sep);
      [[s[0]] + rest[0]] + rest[1..]
  }

  lemma {:induction false} SplitAfterPlainText(x: string, s: string, sep: string)
    requires sep != ""
    requires sep[0] !in x
    ensures Split(x + s, sep) == [x + Split(s, sep)[0]] + Split(s, sep)[1..]
    decreases |x|
  {
    if x != [] {
      assert (x + s)[0] == x[0];
      assert !StartsWith(x + s, sep);
      assert (x + s)[1..] == x[1..] + s;
      SplitAfterPlainText(x[1..], s, sep);
      assert [x[0]] + (x[1..] + Split(s, sep)[0]) == x + Split(s, sep)[0];
    } else {
      var r := Split(s, sep);
      assert x + s == s && x + r[0] == r[0];
      assert [r[0]] + r[1..] == r;
    }
  }

  /** Joining and splitting again gives the parts back, as long as there is at
      least one part and no part contains the separator's first character. */
  lemma {:induction false} SplitJoin(parts: seq<string>, sep: string)
    requires sep != ""
    requires |parts| >= 1
    requires forall k | 0 <= k < |parts| :: sep[0] !in parts[k]
    ensures Split(Join(parts, sep), sep) == parts
  {
    if |parts| == 1 {
      SplitAfterPlainText(parts[0], "", sep);
      assert parts[0] + "" == parts[0];
    } else {
      var rest := Join(parts[1..], sep);
      SplitJoin(parts[1..], sep);
      assert Join(parts, sep) == parts[0] + (sep + rest);
      SplitAfterPlainText(parts[0], sep + rest, sep);
      assert StartsWith(sep + rest, sep);
      assert (sep + rest)[|sep|..] == rest;
      assert Split(sep + rest, sep) == [""] + parts[1..];
      assert parts[0] + "" == parts[0];
    }
  }

  /** The text of `s` before the first `c` (all of `s` when there is none). */
  function TakeUntil(s: string, c: char): (r: string)
    ensures |r| <= |s| && c !in r
  {
    if s == [] || s[0] == c then "" else [s[0]] + TakeUntil(s[1..], c)
  }

  lemma {:induction false} TakeUntilStopsAtFirst(x: string, c: char, s: string)
    requires c !in x
    ensures TakeUntil(x + [c] + s, c) == x
  {
    if x != [] {
      assert (x + [c] + s)[1..] == x[1..] + [c] + s;
      TakeUntilStopsAtFirst(x[1..], c, s);
    }
  }
}
