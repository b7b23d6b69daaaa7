/** The string library calls the storefront relies on, restricted to what the
    model needs: ASCII lower-casing, `includes`, `split`/`join`/`trim`,
    `slice`, decimal `parseInt`/`parseFloat` and integer `toString`. */
module Text {
  import opened Wrappers

  // ---------------------------------------------------------------- case

  predicate IsUpper(c: char) { 'A' <= c <= 'Z' }

  function LowerChar(c: char): char {
    if IsUpper(c) then (c as int + 32) as char else c
  }

  /** `toLowerCase`, restricted to ASCII letters; every other character is kept. */
  function Lower(s: string): (r: string)
    ensures |r| == |s|
    ensures forall i :: 0 <= i < |s| ==> r[i] == LowerChar(s[i])
  {
    seq(|s|, i requires 0 <= i < |s| => LowerChar(s[i]))
  }

  // ---------------------------------------------------------------- search

  predicate StartsWith(s: string, prefix: string) {
    |prefix| <= |s| && s[..|prefix|] == prefix
  }

  /** `s.includes(t)`: `t` occurs in `s` as a contiguous block. */
  predicate Contains(s: string, t: string)
    decreases |s|
  {
    StartsWith(s, t) || (|s| > 0 && Contains(s[1..], t))
  }

  /** `a.toLowerCase().includes(b.toLowerCase())`. */
  predicate ContainsIgnoreCase(s: string, t: string) {
    Contains(Lower(s), Lower(t))
  }

  /** `Contains` holds exactly when `t` starts at some position of `s`. */
  lemma {:induction false} ContainsIff(s: string, t: string)
    ensures Contains(s, t) <==> exists i :: 0 <= i <= |s| && StartsWith(s[i..], t)
    decreases |s|
  {
    if |s| == 0 {
      assert s[0..] == s;
    } else {
      ContainsIff(s[1..], t);
      if Contains(s, t) {
        if StartsWith(s, t) {
          assert s[0..] == s;
        } else {
          var j :| 0 <= j <= |s| - 1 && StartsWith(s[1..][j..], t);
          assert s[1..][j..] == s[j + 1..];
        }
      }
      if exists i :: 0 <= i <= |s| && StartsWith(s[i..], t) {
        var i :| 0 <= i <= |s| && StartsWith(s[i..], t);
        if i == 0 {
          assert s[0..] == s;
        } else {
          assert s[1..][i - 1..] == s[i..];
        }
      }
    }
  }

  /** Every string includes the empty string (so an empty search term matches everything). */
  lemma {:induction false} ContainsEmpty(s: string)
    ensures Contains(s, "")
  {
    assert StartsWith(s, "");
  }

  // ---------------------------------------------------------------- white space

  /** The ASCII white-space characters that `trim` removes. */
  predicate IsSpace(c: char) {
    c == ' ' || c == '\t' || c == '\n' || c == '\r' || c == '\U{000B}' || c == '\U{000C}'
  }

  function TrimStart(s: string): (r: string)
    ensures |r| <= |s| && r == s[|s| - |r|..]
    ensures r == [] || !IsSpace(r[0])
    decreases |s|
  {
    if |s| > 0 && IsSpace(s[0]) then TrimStart(s[1..]) else s
  }

  function TrimEnd(s: string): (r: string)
    ensures |r| <= |s| && r == s[..|r|]
    ensures r == [] || !IsSpace(r[|r| - 1])
    decreases |s|
  {
    if |s| > 0 && IsSpace(s[|s| - 1]) then TrimEnd(s[..|s| - 1]) else s
  }

  /** A string with no white space at either end. */
  predicate Trimmed(s: string) {
    s == [] || (!IsSpace(s[0]) && !IsSpace(s[|s| - 1]))
  }

  /** `trim`: drops leading and trailing white space; the result is trimmed and
      a trimmed string is its own trim. */
  function Trim(s: string): (r: string)
    ensures Trimmed(r)
    ensures Trimmed(s) ==> r == s
  {
    var t := TrimStart(s);
    var r := TrimEnd(t);
    assert r != [] ==> r[0] == t[0];
    r
  }

  /** One leading blank never survives `trim`. */
  lemma {:induction false} TrimLeadingBlank(s: string)
    ensures Trim(" " + s) == Trim(s)
  {
    assert (" " + s)[1..] == s;
  }

  // ---------------------------------------------------------------- split and join

  /** `s.split(sep)` for a one-character separator: the pieces between
      separators, always at least one (`"".split(",")` is `[""]`). */
  function Split(s: string, sep: char): (r: seq<string>)
    ensures |r| >= 1
    ensures forall i :: 0 <= i < |r| ==> sep !in r[i]
    decreases |s|
  {
    if s == [] then [""]
    else
      var rest := Split(s[1..], sep);
      if s[0] == sep then [""] + rest
      else [[s[0]] + rest[0]] + rest[1..]
  }

  /** `xs.join(sep)`; the empty array joins to the empty string. */
  function Join(xs: seq<string>, sep: string): string
    decreases |xs|
  {
    if |xs| == 0 then "" else if |xs| == 1 then xs[0] else xs[0] + sep + Join(xs[1..], sep)
  }

  lemma {:induction false} SplitNoSep(a: string, sep: char)
    requires sep !in a
    ensures Split(a, sep) == [a]
    decreases |a|
  {
    if a != [] {
      SplitNoSep(a[1..], sep);
      assert [a[0]] + a[1..] == a;
    }
  }

  lemma {:induction false} SplitAppend(a: string, sep: char, b: string)
    requires sep !in a
    ensures Split(a + [sep] + b, sep) == [a] + Split(b, sep)
    decreases |a|
  {
    var s := a + [sep] + b;
    if a == [] {
      assert s[1..] == b;
    } else {
      assert s[1..] == a[1..] + [sep] + b;
      SplitAppend(a[1..], sep, b);
      assert [a[0]] + a[1..] == a;
    }
  }

  /** Splitting a join on the same one-character separator gives the pieces back,
      provided there is at least one piece and none contains the separator. */
  lemma {:induction false} SplitJoin(xs: seq<string>, sep: char)
    requires |xs| >= 1
    requires forall i :: 0 <= i < |xs| ==> sep !in xs[i]
    ensures Split(Join(xs, [sep]), sep) == xs
    decreases |xs|
  {
    if |xs| == 1 {
      SplitNoSep(xs[0], sep);
    } else {
      SplitJoin(xs[1..], sep);
      SplitAppend(xs[0], sep, Join(xs[1..], [sep]));
      assert [xs[0]] + xs[1..] == xs;
    }
  }

  /** Joining the pieces of a split with the same separator restores the string. */
  lemma {:induction false} JoinSplit(s: string, sep: char)
    ensures Join(Split(s, sep), [sep]) == s
    decreases |s|
  {
    if s != [] {
      var rest := Split(s[1..], sep);
      JoinSplit(s[1..], sep);
      if s[0] == sep {
        assert Split(s, sep) == [""] + rest;
        assert ([""] + rest)[1..] == rest;
        assert s == [sep] + s[1..];
      } else {
        var r := Split(s, sep);
        assert r == [[s[0]] + rest[0]] + rest[1..];
        if |rest| == 1 {
          assert s == [s[0]] + rest[0];
        } else {
          assert r[1..] == rest[1..];
          assert Join(rest, [sep]) == rest[0] + [sep] + Join(rest[1..], [sep]);
          assert s == [s[0]] + rest[0] + [sep] + Join(rest[1..], [sep]);
        }
      }
    }
  }

  /** `s.split(",").map((x) => x.trim())`: every piece is trimmed and holds no comma. */
  function SplitTrim(s: string): (r: seq<string>)
    ensures |r| >= 1
    ensures forall i :: 0 <= i < |r| ==> Trimmed(r[i]) && ',' !in r[i]
  {
    var pieces := Split(s, ',');
    seq(|pieces|, i requires 0 <= i < |pieces| => Trim(pieces[i]))
  }

  /** Splitting on commas does not care about one leading blank beyond keeping it. */
  lemma {:induction false} SplitLeadingBlank(t: string)
    ensures Split(" " + t, ',') == [" " + Split(t, ',')[0]] + Split(t, ',')[1..]
  {
    assert (" " + t)[1..] == t;
  }

  /** The pieces of `xs.join(", ")` split on commas: the first entry, then each
      later entry behind one blank. */
  function Blanked(xs: seq<string>): (r: seq<string>)
    requires |xs| >= 1
  {
    [xs[0]] + seq(|xs| - 1, i requires 0 <= i < |xs| - 1 => " " + xs[i + 1])
  }

  lemma {:induction false} SplitCommaBlankJoin(xs: seq<string>)
    requires |xs| >= 1
    requires forall i :: 0 <= i < |xs| ==> ',' !in xs[i]
    ensures Split(Join(xs, ", "), ',') == Blanked(xs)
    decreases |xs|
  {
    if |xs| == 1 {
      SplitNoSep(xs[0], ',');
    } else {
      var tail := Join(xs[1..], ", ");
      SplitCommaBlankJoin(xs[1..]);
      var q := Split(tail, ',');
      assert Join(xs, ", ") == xs[0] + [','] + (" " + tail);
      SplitAppend(xs[0], ',', " " + tail);
      SplitLeadingBlank(tail);
      var b := Blanked(xs);
      assert |b| == |xs|;
      assert q == Blanked(xs[1..]);
      assert [" " + q[0]] + q[1..] == b[1..];
      assert b == [xs[0]] + b[1..];
    }
  }

  /** The product form's round trip: a list shown as `xs.join(", ")` and read back
      with split-and-trim gives the same list when no entry holds a comma or outer
      white space and the list is not empty; the empty list comes back as `[""]`. */
  lemma {:induction false} SplitTrimJoin(xs: seq<string>)
    requires forall i :: 0 <= i < |xs| ==> ',' !in xs[i] && Trimmed(xs[i])
    ensures xs != [] ==> SplitTrim(Join(xs, ", ")) == xs
    ensures xs == [] ==> SplitTrim(Join(xs, ", ")) == [""]
  {
    if xs != [] {
      SplitCommaBlankJoin(xs);
      var b := Blanked(xs);
      var r := SplitTrim(Join(xs, ", "));
      assert |r| == |xs|;
      forall i | 0 <= i < |xs|
        ensures r[i] == xs[i]
      {
        assert r[i] == Trim(b[i]);
        if i > 0 {
          assert b[i] == " " + xs[i];
          TrimLeadingBlank(xs[i]);
        }
      }
    }
  }

  /** `s.split(sep)[0]`: the text before the first `sep`, or all of `s`. */
  function FirstPiece(s: string, sep: char): (r: string)
    ensures |r| <= |s| && r == s[..|r|]
    ensures sep !in r
    ensures |r| < |s| ==> s[|r|] == sep
  {
    SplitFirstPiece(s, sep);
    Split(s, sep)[0]
  }

  lemma {:induction false} SplitFirstPiece(s: string, sep: char)
    ensures var r := Split(s, sep)[0];
      |r| <= |s| && r == s[..|r|] && (|r| < |s| ==> s[|r|] == sep)
    decreases |s|
  {
    if s != [] {
      SplitFirstPiece(s[1..], sep);
    }
  }

  /** The first piece is exactly the text up to the first `sep`, all of `s` when
      there is none. */
  lemma FirstPieceUpTo(s: string, sep: char, k: int)
    requires 0 <= k <= |s| && sep !in s[..k]
    requires k < |s| ==> s[k] == sep
    ensures FirstPiece(s, sep) == s[..k]
  {
    var r := FirstPiece(s, sep);
    assert forall i :: 0 <= i < k ==> s[..k][i] == s[i];
  }

  // ---------------------------------------------------------------- slices

  /** `s.slice(1)`: all but the first character (empty stays empty). */
  function DropFirst(s: string): string {
    if |s| == 0 then s else s[1..]
  }

  /** `s.slice(-4)`: the last four characters, or all of a shorter string. */
  function LastFour(s: string): (r: string)
    ensures |r| == if |s| < 4 then |s| else 4
    ensures s == s[..|s| - |r|] + r
  {
    if |s| < 4 then s else s[|s| - 4..]
  }

  // ---------------------------------------------------------------- numbers

  predicate IsDigit(c: char) { '0' <= c <= '9' }

  predicate AllDigits(d: string) {
    forall i :: 0 <= i < |d| ==> IsDigit(d[i])
  }

  function DigitValue(c: char): nat
    requires IsDigit(c)
  {
    c as int - '0' as int
  }

  function DigitChar(d: nat): char
    requires d < 10
  {
    ('0' as int + d) as char
  }

  /** The longest run of decimal digits at the start of `s`. */
  function LeadingDigits(s: string): (r: string)
    ensures |r| <= |s| && r == s[..|r|] && AllDigits(r)
    ensures |r| < |s| ==> !IsDigit(s[|r|])
    decreases |s|
  {
    if |s| > 0 && IsDigit(s[0]) then [s[0]] + LeadingDigits(s[1..]) else []
  }

  /** The value of a string of decimal digits, most significant first. */
  function DigitsValue(d: string): nat
    requires AllDigits(d)
    decreases |d|
  {
    if d == [] then 0 else DigitsValue(d[..|d| - 1]) * 10 + DigitValue(d[|d| - 1])
  }

  /** `v / 10^k`, one decimal place at a time. */
  function Shift(v: real, k: nat): real {
    if k == 0 then v else Shift(v, k - 1) / 10.0
  }

  /** The digits after the decimal point that follows the leading digits of `u`;
      empty when no point follows them. */
  function FractionDigits(u: string): (r: string)
    ensures AllDigits(r)
    decreases |u|
  {
    if |u| > 0 && IsDigit(u[0]) then FractionDigits(u[1..])
    else if |u| > 0 && u[0] == '.' then LeadingDigits(u[1..])
    else []
  }

  /** The text after one optional leading sign. */
  function Unsigned(t: string): string {
    if |t| > 0 && (t[0] == '-' || t[0] == '+') then t[1..] else t
  }

  /** `Number.parseInt(s)` without a radix, on decimal text: leading white space is
      skipped, one sign is read, then the longest run of digits; no digit gives
      `NaN`, written `None`. */
  function ParseInt(s: string): Option<int> {
    var t := TrimStart(s);
    var d := LeadingDigits(Unsigned(t));
    if d == [] then None
    else if |t| > 0 && t[0] == '-' then Some(-(DigitsValue(d) as int))
    else Some(DigitsValue(d))
  }

  /** `Number.parseFloat(s)` on decimal text: white space, one sign, digits, an
      optional `.` and fraction digits; at least one digit overall, else `NaN`. */
  function ParseFloat(s: string): Option<real> {
    var t := TrimStart(s);
    var u := Unsigned(t);
    var whole := LeadingDigits(u);
    var frac := FractionDigits(u);
    if whole == [] && frac == [] then None
    else
      var magnitude := DigitsValue(whole) as real + Shift(DigitsValue(frac) as real, |frac|);
      Some(if |t| > 0 && t[0] == '-' then -magnitude else magnitude)
  }

  /** Decimal digits of a natural number, without leading zeros. */
  function NatText(n: nat): (r: string)
    ensures |r| >= 1 && AllDigits(r)
    decreases n
  {
    if n < 10 then [DigitChar(n)] else NatText(n / 10) + [DigitChar(n % 10)]
  }

  /** `n.toString()` for an integer. */
  function IntText(n: int): string {
    if n < 0 then "-" + NatText(-n) else NatText(n)
  }

  lemma {:induction false} NatTextValue(n: nat)
    ensures DigitsValue(NatText(n)) == n
    decreases n
  {
    if n >= 10 {
      NatTextValue(n / 10);
      var t := NatText(n);
      assert t[..|t| - 1] == NatText(n / 10);
    }
  }

  lemma {:induction false} LeadingDigitsAll(d: string)
    requires AllDigits(d)
    ensures LeadingDigits(d) == d
    decreases |d|
  {
    if d != [] {
      LeadingDigitsAll(d[1..]);
      assert [d[0]] + d[1..] == d;
    }
  }

  lemma TrimStartKeeps(s: string)
    requires |s| > 0 && !IsSpace(s[0])
    ensures TrimStart(s) == s
  {
  }

  lemma {:induction false} ParseIntDigits(d: string)
    requires |d| >= 1 && AllDigits(d)
    ensures ParseInt(d) == Some(DigitsValue(d) as int)
  {
    LeadingDigitsAll(d);
    TrimStartKeeps(d);
  }

  lemma {:induction false} ParseIntMinusDigits(d: string)
    requires |d| >= 1 && AllDigits(d)
    ensures ParseInt("-" + d) == Some(-(DigitsValue(d) as int))
  {
    var m := "-" + d;
    LeadingDigitsAll(d);
    assert m[1..] == d;
    TrimStartKeeps(m);
  }

  /** `parseInt` reads back what `toString` wrote for every integer. */
  lemma ParseIntText(n: int)
    ensures ParseInt(IntText(n)) == Some(n)
  {
    var m: nat := if n < 0 then -n else n;
    NatTextValue(m);
    if n < 0 {
      ParseIntMinusDigits(NatText(m));
    } else {
      ParseIntDigits(NatText(m));
    }
  }

  /** Text that starts with a letter is not a number. */
  lemma ParseFloatLetter(s: string)
    requires |s| > 0 && 'A' <= s[0] <= 'Z'
    ensures ParseFloat(s) == None
  {
    assert TrimStart(s) == s;
    assert Unsigned(s) == s;
    assert LeadingDigits(s) == [];
    assert FractionDigits(s) == [];
  }

  /** All-digit text has no fraction part. */
  lemma {:induction false} FractionDigitsAll(d: string)
    requires AllDigits(d)
    ensures FractionDigits(d) == []
    decreases |d|
  {
    if d != [] {
      FractionDigitsAll(d[1..]);
    }
  }

  /** `parseFloat` of text that is an optional minus sign and then digits only. */
  lemma ParseFloatDigits(d: string)
    requires |d| >= 1 && AllDigits(d)
    ensures ParseFloat(d) == Some(DigitsValue(d) as real)
  {
    LeadingDigitsAll(d);
    FractionDigitsAll(d);
    TrimStartKeeps(d);
    assert Unsigned(d) == d;
    assert Shift(DigitsValue([]) as real, 0) == 0.0;
  }

  /** `parseFloat` reads back what `toString` wrote for every whole number that is
      not negative. */
  lemma ParseFloatText(n: nat)
    ensures ParseFloat(IntText(n)) == Some(n as real)
  {
    NatTextValue(n);
    ParseFloatDigits(NatText(n));
  }
}
