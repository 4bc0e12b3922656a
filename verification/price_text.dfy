/** The catalogue's price strings: src/App.jsx turns the Brazilian writing "1.234,56" into a
    number with `Number(String(p.price || "0").replace(/\./g, "").replace(",", "."))`.
    Here the number is read in cents, for the decimal literals with at most two fraction
    digits that the catalogue uses. */
module PriceText {
  import opened Wrappers
  import opened Digits
  import opened Seqs

  /** The white space `Number` trims that a catalogue string can hold. */
  predicate IsSpace(c: char) {
    c == ' ' || c == '\t' || c == '\n' || c == '\r'
  }

  /** `s.replace(/c/g, "")` for one literal character. */
  function RemoveAll(s: string, c: char): (r: string)
    ensures |r| <= |s|
    decreases |s|
  {
    if |s| == 0 then ""
    else
      var rest := RemoveAll(s[1..], c);
      if s[0] == c then rest else [s[0]] + rest
  }

  /** What `RemoveAll` leaves holds no `c`, and every character of `s` other than `c`
      survives, in order. */
  lemma {:induction false} RemoveAllRemoves(s: string, c: char)
    ensures forall i :: 0 <= i < |RemoveAll(s, c)| ==> RemoveAll(s, c)[i] != c
    ensures |RemoveAll(s, c)| + Occurrences(s, c) == |s|
    decreases |s|
  {
    if |s| > 0 {
      RemoveAllRemoves(s[1..], c);
    }
  }

  /** Removing a character that does not occur changes nothing. */
  lemma {:induction false} RemoveAllAbsent(s: string, c: char)
    requires forall i :: 0 <= i < |s| ==> s[i] != c
    ensures RemoveAll(s, c) == s
    decreases |s|
  {
    if |s| > 0 {
      RemoveAllAbsent(s[1..], c);
      assert s == [s[0]] + s[1..];
    }
  }

  /** Removing twice is removing once. */
  lemma RemoveAllIdempotent(s: string, c: char)
    ensures RemoveAll(RemoveAll(s, c), c) == RemoveAll(s, c)
  {
    RemoveAllRemoves(s, c);
    RemoveAllAbsent(RemoveAll(s, c), c);
  }

  /** `s.indexOf(c)`, with "not found" as `|s|`. */
  function IndexOf(s: string, c: char): (r: nat)
    ensures r <= |s|
    decreases |s|
  {
    if |s| == 0 then 0
    else if s[0] == c then 0
    else 1 + IndexOf(s[1..], c)
  }

  /** `IndexOf` finds the first occurrence, or reports that there is none. */
  lemma {:induction false} IndexOfSpec(s: string, c: char)
    ensures IndexOf(s, c) < |s| ==> s[IndexOf(s, c)] == c
    ensures forall j :: 0 <= j < IndexOf(s, c) ==> s[j] != c
    decreases |s|
  {
    if |s| > 0 && s[0] != c {
      IndexOfSpec(s[1..], c);
    }
  }

  /** `s.replace(from, to)` with a string pattern: only the first occurrence changes. */
  function ReplaceFirst(s: string, from: char, to: char): (r: string)
    ensures |r| == |s|
    ensures IndexOf(s, from) == |s| ==> r == s
  {
    var k := IndexOf(s, from);
    if k == |s| then s else s[..k] + [to] + s[k + 1..]
  }

  /** The first `from` becomes `to` and every other character stays where it was. */
  lemma ReplaceFirstOnlyFirst(s: string, from: char, to: char)
    ensures IndexOf(s, from) < |s| ==> ReplaceFirst(s, from, to)[IndexOf(s, from)] == to
    ensures forall i :: 0 <= i < |s| && i != IndexOf(s, from) ==> ReplaceFirst(s, from, to)[i] == s[i]
  {
  }

  /** Drops leading white space. */
  function TrimStart(s: string): (r: string)
    ensures |r| <= |s|
    decreases |s|
  {
    if |s| > 0 && IsSpace(s[0]) then TrimStart(s[1..]) else s
  }

  /** Drops trailing white space. */
  function TrimEnd(s: string): (r: string)
    ensures |r| <= |s|
    decreases |s|
  {
    if |s| > 0 && IsSpace(s[|s| - 1]) then TrimEnd(s[..|s| - 1]) else s
  }

  /** What `TrimStart` keeps is a suffix that does not start with white space, and
      everything it drops is white space. */
  lemma {:induction false} TrimStartSpec(s: string)
    ensures var r := TrimStart(s);
      && r == s[|s| - |r|..]
      && (|r| > 0 ==> !IsSpace(r[0]))
      && (forall i :: 0 <= i < |s| - |r| ==> IsSpace(s[i]))
    decreases |s|
  {
    if |s| > 0 && IsSpace(s[0]) {
      TrimStartSpec(s[1..]);
    }
  }

  /** What `TrimEnd` keeps is a prefix that does not end with white space, and everything
      it drops is white space. */
  lemma {:induction false} TrimEndSpec(s: string)
    ensures var r := TrimEnd(s);
      && r == s[..|r|]
      && (|r| > 0 ==> !IsSpace(r[|r| - 1]))
      && (forall i :: |r| <= i < |s| ==> IsSpace(s[i]))
    decreases |s|
  {
    if |s| > 0 && IsSpace(s[|s| - 1]) {
      TrimEndSpec(s[..|s| - 1]);
    }
  }

  /** `String.prototype.trim`, which `Number` applies first. */
  function Trim(s: string): string {
    TrimEnd(TrimStart(s))
  }

  /** The cents a fraction of at most two digits stands for: "5" is 50, "05" is 5. */
  function FractionCents(f: string): (r: nat)
    requires AllDigits(f) && |f| <= 2
    ensures r < 100
  {
    if |f| == 0 then 0
    else if |f| == 1 then DigitValue(f[0]) * 10
    else DigitValue(f[0]) * 10 + DigitValue(f[1])
  }

  /** The digits before and after the point, read in cents: at least one digit, and at
      most two after the point. */
  function DecimalParts(whole: string, frac: string): (r: Option<int>)
    ensures r.Some? <==> AllDigits(whole) && AllDigits(frac) && |frac| <= 2 && (|whole| > 0 || |frac| > 0)
    ensures r.Some? ==> r.value >= 0
  {
    if AllDigits(whole) && AllDigits(frac) && |frac| <= 2 && (|whole| > 0 || |frac| > 0) then
      Some(DigitsValue(whole) * 100 + FractionCents(frac))
    else None
  }

  /** A trimmed decimal literal in cents. Blank text is 0; digits with an optional point
      and up to two fraction digits are read; anything else (NaN, a sign, an exponent, a
      third decimal) is None. */
  function ParseDecimal(t: string): (r: Option<int>)
    ensures r.Some? ==> r.value >= 0
    ensures |t| == 0 ==> r == Some(0)
    ensures AllDigits(t) && |t| > 0 ==> r == Some(DigitsValue(t) * 100)
  {
    if |t| == 0 then Some(0)
    else
      var k := IndexOf(t, '.');
      IndexOfSpec(t, '.');
      assert AllDigits(t) ==> k == |t| && t[..k] == t;
      DecimalParts(t[..k], if k < |t| then t[k + 1..] else "")
  }

  /** `Number(s)` in cents: the trimmed text, read as a decimal. */
  function NumberToCents(s: string): Option<int> {
    ParseDecimal(Trim(s))
  }

  /** The two `replace` calls: thousands points dropped, the decimal comma made a point. */
  function Dotted(s: string): (r: string)
    ensures |r| <= |s|
  {
    ReplaceFirst(RemoveAll(s, '.'), ',', '.')
  }

  /** The price of one catalogue entry in cents; "" stands for a missing or empty price,
      which `|| "0"` turns into zero. */
  function NormalizePrice(raw: string): (r: Option<int>)
    ensures raw == "" ==> r == Some(0)
    ensures r.Some? ==> r.value >= 0
  {
    var text := if raw == "" then "0" else raw;
    assert raw == "" ==> Dotted(text) == "0" && Trim("0") == "0" && AllDigits("0");
    NumberToCents(Dotted(text))
  }

  /** The `oldPrice` field: null (None) for a missing or empty old price, otherwise the
      same two `replace` calls and `Number`, with no `|| "0"` in front. */
  function NormalizeOldPrice(raw: string): (r: Option<Option<int>>)
    ensures raw == "" <==> r.None?
    ensures raw != "" ==> r == Some(NormalizePrice(raw))
  {
    if raw == "" then None else Some(NumberToCents(Dotted(raw)))
  }

  /** A price written the Brazilian way: whole reais, a comma, two digits of centavos. */
  function FormatBRL(c: nat): (r: string)
    ensures |r| >= 4 && r[|r| - 3] == ','
  {
    NatToDigits(c / 100) + [',', DigitChar(c % 100 / 10), DigitChar(c % 100 % 10)]
  }

  /** `IndexOf` finds the first occurrence and nothing earlier. */
  lemma IndexOfAt(s: string, c: char, k: nat)
    requires k < |s| && s[k] == c
    requires forall j :: 0 <= j < k ==> s[j] != c
    ensures IndexOf(s, c) == k
  {
    IndexOfSpec(s, c);
  }

  /** A leading space passes through both `replace` calls. */
  lemma DottedPassesSpace(x: string)
    ensures Dotted([' '] + x) == [' '] + Dotted(x)
  {
    var sx := [' '] + x;
    assert sx[1..] == x;
    assert RemoveAll(sx, '.') == [' '] + RemoveAll(x, '.');
    var y := RemoveAll(x, '.');
    var sy := [' '] + y;
    assert sy[1..] == y;
    var k := IndexOf(y, ',');
    assert IndexOf(sy, ',') == k + 1;
    if k < |y| {
      assert sy[..k + 1] == [' '] + y[..k];
      assert sy[k + 2..] == y[k + 1..];
    }
  }

  /** `Number` does not see a leading space. */
  lemma NumberPassesSpace(x: string)
    ensures NumberToCents([' '] + x) == NumberToCents(x)
  {
    assert ([' '] + x)[1..] == x;
    assert TrimStart([' '] + x) == TrimStart(x);
  }

  /** A lone space is a blank price, which `Number` reads as zero. */
  lemma BlankPrice()
    ensures NormalizePrice(" ") == Some(0)
  {
    assert Dotted(" ") == " ";
    assert Trim(" ") == "";
  }

  /** A leading space never changes a price. */
  lemma LeadingSpaceIgnored(raw: string)
    ensures NormalizePrice([' '] + raw) == NormalizePrice(raw)
  {
    if raw == "" {
      BlankPrice();
    } else {
      DottedPassesSpace(raw);
      NumberPassesSpace(Dotted(raw));
    }
  }

  /** Without points, the `replace` calls turn the first comma into the decimal point. */
  lemma CommaToPoint(w: string, a: char, b: char)
    requires AllDigits(w) && IsDigit(a) && IsDigit(b)
    ensures Dotted(w + [',', a, b]) == w + ['.', a, b]
  {
    var f := w + [',', a, b];
    forall i | 0 <= i < |f| ensures f[i] != '.' && (i < |w| ==> f[i] != ',') {
      if i < |w| { assert f[i] == w[i]; }
    }
    RemoveAllAbsent(f, '.');
    IndexOfAt(f, ',', |w|);
    assert f[..|w|] == w;
    assert f[|w| + 1..] == [a, b];
  }

  /** The point splits a dotted decimal into its two digit runs. */
  lemma SplitAtPoint(w: string, a: char, b: char)
    requires AllDigits(w) && IsDigit(a) && IsDigit(b)
    ensures ParseDecimal(w + ['.', a, b]) == DecimalParts(w, [a, b])
  {
    var g := w + ['.', a, b];
    IndexOfAt(g, '.', |w|);
    assert g[..|w|] == w;
    assert g[|w| + 1..] == [a, b];
    assert !AllDigits(g) by { assert !IsDigit(g[|w|]); }
  }

  lemma TwoDigitParts(w: string, a: char, b: char)
    requires AllDigits(w) && |w| > 0 && IsDigit(a) && IsDigit(b)
    ensures DecimalParts(w, [a, b]) == Some(DigitsValue(w) * 100 + DigitValue(a) * 10 + DigitValue(b))
  {
  }

  /** A dotted decimal that starts and ends with a digit trims to itself. */
  lemma DottedTrims(w: string, a: char, b: char)
    requires AllDigits(w) && |w| > 0 && IsDigit(a) && IsDigit(b)
    ensures NumberToCents(w + ['.', a, b]) == ParseDecimal(w + ['.', a, b])
  {
    var g := w + ['.', a, b];
    assert g[0] == w[0];
    assert TrimStart(g) == g;
    assert TrimEnd(g) == g;
  }

  /** A dotted decimal with two fraction digits reads as its value in cents. */
  lemma ReadsBack(w: string, a: char, b: char)
    requires AllDigits(w) && |w| > 0 && IsDigit(a) && IsDigit(b)
    ensures NumberToCents(w + ['.', a, b]) == Some(DigitsValue(w) * 100 + DigitValue(a) * 10 + DigitValue(b))
  {
    DottedTrims(w, a, b);
    SplitAtPoint(w, a, b);
    TwoDigitParts(w, a, b);
  }

  /** Any Brazilian-written price normalises to its value in cents. */
  lemma NormalizeWritten(w: string, a: char, b: char)
    requires AllDigits(w) && |w| > 0 && IsDigit(a) && IsDigit(b)
    ensures NormalizePrice(w + [',', a, b]) == Some(DigitsValue(w) * 100 + DigitValue(a) * 10 + DigitValue(b))
  {
    CommaToPoint(w, a, b);
    ReadsBack(w, a, b);
  }

  /** The digits `FormatBRL` writes add back up to the cents. */
  lemma FormattedValue(c: nat)
    ensures DigitsValue(NatToDigits(c / 100)) * 100 + DigitValue(DigitChar(c % 100 / 10)) * 10
            + DigitValue(DigitChar(c % 100 % 10)) == c
  {
    DigitsRoundTrip(c / 100);
  }

  /** Normalising a formatted price gives back its cents. */
  lemma NormalizeFormatted(c: nat)
    ensures NormalizePrice(FormatBRL(c)) == Some(c)
  {
    var w, a, b := NatToDigits(c / 100), DigitChar(c % 100 / 10), DigitChar(c % 100 % 10);
    assert FormatBRL(c) == w + [',', a, b];
    assert DigitsValue(w) * 100 + DigitValue(a) * 10 + DigitValue(b) == c by {
      FormattedValue(c);
    }
    NormalizeWritten(w, a, b);
  }

  /** The same with the leading space some catalogue entries carry. */
  lemma NormalizeFormattedSpaced(c: nat)
    ensures NormalizePrice([' '] + FormatBRL(c)) == Some(c)
  {
    NormalizeFormatted(c);
    LeadingSpaceIgnored(FormatBRL(c));
  }

  /** Points are thousands separators: they never change the price. */
  lemma PointsIgnored(raw: string)
    ensures NormalizePrice(raw) == NormalizePrice(RemoveAll(raw, '.'))
  {
    RemoveAllIdempotent(raw, '.');
  }

  /** One of the catalogue's own strings. */
  lemma PlainExample()
    ensures NormalizePrice("89,90") == Some(8990)
  {
    NormalizeWritten("89", '9', '0');
    assert "89" + [',', '9', '0'] == "89,90";
  }

  /** `RemoveAll` works piece by piece. */
  lemma {:induction false} RemoveAllAppend(s: string, t: string, c: char)
    ensures RemoveAll(s + t, c) == RemoveAll(s, c) + RemoveAll(t, c)
    decreases |s|
  {
    if |s| > 0 {
      assert (s + t)[1..] == s[1..] + t;
      RemoveAllAppend(s[1..], t, c);
    } else {
      assert s + t == t;
    }
  }

  /** The thousands point is the only point of a grouped price. */
  lemma DropGroupPoint(w: string, v: string, a: char, b: char)
    requires AllDigits(w) && AllDigits(v) && IsDigit(a) && IsDigit(b)
    ensures RemoveAll(w + ['.'] + v + [',', a, b], '.') == (w + v) + [',', a, b]
  {
    var tail := v + [',', a, b];
    assert w + ['.'] + v + [',', a, b] == w + (['.'] + tail);
    RemoveAllAppend(w, ['.'] + tail, '.');
    RemoveAllAppend(['.'], tail, '.');
    RemoveAllAbsent(w, '.');
    forall i | 0 <= i < |tail| ensures tail[i] != '.' {
      if i < |v| { assert tail[i] == v[i]; }
    }
    RemoveAllAbsent(tail, '.');
    assert ['.'][1..] == "";
    assert w + tail == (w + v) + [',', a, b];
  }

  /** A price with a thousands point reads as the same digits without it. */
  lemma GroupedWritten(w: string, v: string, a: char, b: char)
    requires AllDigits(w) && |w| > 0 && AllDigits(v) && IsDigit(a) && IsDigit(b)
    ensures NormalizePrice(w + ['.'] + v + [',', a, b])
            == Some(DigitsValue(w + v) * 100 + DigitValue(a) * 10 + DigitValue(b))
  {
    var raw := w + ['.'] + v + [',', a, b];
    var wv := w + v;
    var cents := DigitsValue(wv) * 100 + DigitValue(a) * 10 + DigitValue(b);
    assert NormalizePrice(raw) == NormalizePrice(wv + [',', a, b]) by {
      PointsIgnored(raw);
      DropGroupPoint(w, v, a, b);
    }
    assert NormalizePrice(wv + [',', a, b]) == Some(cents) by {
      forall i | 0 <= i < |wv| ensures IsDigit(wv[i]) {
        if i >= |w| { assert wv[i] == v[i - |w|]; }
      }
      NormalizeWritten(wv, a, b);
    }
  }

  /** "1.234,56" is 1234 reais and 56 centavos. */
  lemma ThousandsSeparator()
    ensures NormalizePrice("1.234,56") == Some(123456)
  {
    var w, v := "1", "234";
    assert DigitsValue(w + v) == 1234 by {
      assert w + v == "1234";
      assert "1"[..0] == "";
      assert DigitsValue("1") == 1;
      assert "12"[..1] == "1";
      assert DigitsValue("12") == 12;
      assert "123"[..2] == "12";
      assert DigitsValue("123") == 123;
      assert "1234"[..3] == "123";
    }
    assert w + ['.'] + v + [',', '5', '6'] == "1.234,56";
    GroupedWritten(w, v, '5', '6');
  }
}
