/** Text helpers standing for the C library and APR string routines the core
    relies on: printf-style number formatting (`%d`, `%u`, `%02d`, `%08x`),
    `strtol` in base 10, `strstr`, `apr_strtok`, string replacement and
    per-character sanitising. Each comes with the property that makes it usable:
    formatting round-trips through parsing, tokens never contain the separator. */
module Text {
  import opened Common

  // ---------------------------------------------------------------------------
  // Decimal formatting and parsing

  predicate IsDigit(c: char) { '0' <= c <= '9' }

  predicate AllDigits(s: string) { forall i :: 0 <= i < |s| ==> IsDigit(s[i]) }

  function DigitChar(d: nat): (c: char)
    requires d < 10
    ensures IsDigit(c)
  {
    ['0', '1', '2', '3', '4', '5', '6', '7', '8', '9'][d]
  }

  function DigitValue(c: char): (d: nat)
    requires IsDigit(c)
    ensures d < 10
  {
    (c as int - '0' as int) as nat
  }

  lemma DigitValueOfChar(d: nat)
    requires d < 10
    ensures DigitValue(DigitChar(d)) == d
  {
  }

  /** The shortest decimal spelling of n (what `%u` prints for a value in range). */
  function NatToDec(n: nat): (s: string)
    ensures 1 <= |s| && AllDigits(s)
    ensures s[0] == '0' ==> n == 0
    decreases n
  {
    if n < 10 then [DigitChar(n)] else NatToDec(n / 10) + [DigitChar(n % 10)]
  }

  /** The value of a string of decimal digits, most significant first. */
  function DecValue(s: string): nat
    requires AllDigits(s)
  {
    if |s| == 0 then 0 else 10 * DecValue(s[..|s| - 1]) + DigitValue(s[|s| - 1])
  }

  lemma {:induction false} DecRoundTrip(n: nat)
    ensures DecValue(NatToDec(n)) == n
    decreases n
  {
    var s := NatToDec(n);
    if n < 10 {
      DigitValueOfChar(n);
    } else {
      DecRoundTrip(n / 10);
      assert s[..|s| - 1] == NatToDec(n / 10);
      DigitValueOfChar(n % 10);
    }
  }

  lemma NatToDecInjective(m: nat, n: nat)
    requires NatToDec(m) == NatToDec(n)
    ensures m == n
  {
    DecRoundTrip(m);
    DecRoundTrip(n);
  }

  /** `%d` / `%i` of an int. */
  function IntToDec(n: int): (s: string)
    ensures 1 <= |s|
    ensures n >= 0 ==> s == NatToDec(n)
    ensures n < 0 ==> s == "-" + NatToDec(-n)
  {
    if n < 0 then "-" + NatToDec(-n) else NatToDec(n)
  }

  /** `%u` of a C int: the value taken modulo 2^32. */
  function UnsignedDec(n: int): (s: string)
    ensures AllDigits(s) && DecValue(s) == n % Two32
  {
    DecRoundTrip(n % Two32);
    NatToDec(n % Two32)
  }

  function Zeros(k: nat): (s: string)
    ensures |s| == k && forall i :: 0 <= i < k ==> s[i] == '0'
  {
    if k == 0 then "" else "0" + Zeros(k - 1)
  }

  /** Left-pads a digit string with zeros up to a minimum width. */
  function ZeroPad(s: string, width: nat): (r: string)
    ensures |r| == if |s| >= width then |s| else width
    ensures r[|r| - |s|..] == s
  {
    if |s| >= width then s else Zeros(width - |s|) + s
  }

  /** `%02d`: at least two characters, zero-padded after any minus sign. */
  function Dec02(n: int): (s: string)
    ensures 0 <= n < 100 ==> |s| == 2 && AllDigits(s) && DecValue(s) == n
  {
    if n < 0 then "-" + ZeroPad(NatToDec(-n), 1)
    else
      var d := NatToDec(n);
      DecRoundTrip(n);
      if |d| < 2 then
        assert ZeroPad(d, 2) == ['0'] + d;
        DecValueLeadingZero(d);
        ZeroPad(d, 2)
      else d
  }

  lemma {:induction false} DecValueLeadingZero(s: string)
    requires AllDigits(s)
    ensures AllDigits(['0'] + s) && DecValue(['0'] + s) == DecValue(s)
    decreases |s|
  {
    if |s| > 0 {
      assert (['0'] + s)[..|s|] == ['0'] + s[..|s| - 1];
      DecValueLeadingZero(s[..|s| - 1]);
    }
  }

  // ---------------------------------------------------------------------------
  // Fixed-width lower-case hexadecimal (`%08x`)

  predicate IsHexDigit(c: char) { '0' <= c <= '9' || 'a' <= c <= 'f' }

  function HexDigit(d: nat): (c: char)
    requires d < 16
    ensures IsHexDigit(c)
  {
    "0123456789abcdef"[d]
  }

  function HexDigitValue(c: char): (d: nat)
    requires IsHexDigit(c)
    ensures d < 16
  {
    if c <= '9' then (c as int - '0' as int) as nat else (c as int - 'a' as int + 10) as nat
  }

  function Pow16(w: nat): (p: nat)
    ensures p >= 1
  {
    if w == 0 then 1 else 16 * Pow16(w - 1)
  }

  /** The low `width` hexadecimal digits of n, most significant first. */
  function HexFixed(n: nat, width: nat): (s: string)
    ensures |s| == width && forall i :: 0 <= i < width ==> IsHexDigit(s[i])
  {
    if width == 0 then "" else HexFixed(n / 16, width - 1) + [HexDigit(n % 16)]
  }

  function HexValue(s: string): nat
    requires forall i :: 0 <= i < |s| ==> IsHexDigit(s[i])
  {
    if |s| == 0 then 0 else 16 * HexValue(s[..|s| - 1]) + HexDigitValue(s[|s| - 1])
  }

  lemma {:induction false} HexFixedRoundTrip(n: nat, width: nat)
    requires n < Pow16(width)
    ensures HexValue(HexFixed(n, width)) == n
    decreases width
  {
    if width > 0 {
      var s := HexFixed(n, width);
      assert s[..width - 1] == HexFixed(n / 16, width - 1);
      HexFixedRoundTrip(n / 16, width - 1);
      assert HexDigitValue(HexDigit(n % 16)) == n % 16;
    }
  }

  /** `%08x` of a C int: eight lower-case hex digits of the value modulo 2^32. */
  function Hex08(n: int): (s: string)
    ensures |s| == 8 && forall i :: 0 <= i < 8 ==> IsHexDigit(s[i])
    ensures HexValue(s) == n % Two32
  {
    assert Pow16(8) == Two32;
    HexFixedRoundTrip(n % Two32, 8);
    HexFixed(n % Two32, 8)
  }

  // ---------------------------------------------------------------------------
  // strtol(s, &end, 10)

  predicate IsSpace(c: char) { c == ' ' || c == '\t' || c == '\n' || c == '\U{000B}' || c == '\U{000C}' || c == '\r' }

  function SkipSpaces(s: string, i: nat): (j: nat)
    requires i <= |s|
    ensures i <= j <= |s|
    ensures forall k :: i <= k < j ==> IsSpace(s[k])
    ensures j < |s| ==> !IsSpace(s[j])
    decreases |s| - i
  {
    if i < |s| && IsSpace(s[i]) then SkipSpaces(s, i + 1) else i
  }

  function DigitsEnd(s: string, i: nat): (j: nat)
    requires i <= |s|
    ensures i <= j <= |s| && AllDigits(s[i..j])
    ensures j < |s| ==> !IsDigit(s[j])
    decreases |s| - i
  {
    if i < |s| && IsDigit(s[i]) then DigitsEnd(s, i + 1) else i
  }

  /** `strtol(s, &end, 10)`: the value and the index `end` points at. Leading white
      space and one sign are accepted; with no digit at all the value is 0 and
      `end` is the start of the string. */
  function StrToL(s: string): (r: (int, nat))
    ensures r.1 <= |s|
    ensures r.1 == 0 ==> r.0 == 0
  {
    var i0 := SkipSpaces(s, 0);
    var neg := i0 < |s| && s[i0] == '-';
    var i1 := if i0 < |s| && (s[i0] == '-' || s[i0] == '+') then i0 + 1 else i0;
    var i2 := DigitsEnd(s, i1);
    if i2 == i1 then (0, 0)
    else
      var v: int := DecValue(s[i1..i2]);
      var value := if neg then -v else v;
      (value, i2)
  }

  /** `strtol` stops right after the last digit of the run it read, and a
      negative value was preceded by a minus sign. */
  lemma StrToLStops(s: string)
    ensures var r := StrToL(s);
            (r.1 > 0 ==> IsDigit(s[r.1 - 1]) && (r.1 < |s| ==> !IsDigit(s[r.1]))) &&
            (r.0 < 0 ==> '-' in s[..r.1])
  {
    var i0 := SkipSpaces(s, 0);
    var i1 := if i0 < |s| && (s[i0] == '-' || s[i0] == '+') then i0 + 1 else i0;
    var i2 := DigitsEnd(s, i1);
    if i2 > i1 {
      assert IsDigit(s[i1..i2][i2 - 1 - i1]);
      if StrToL(s).0 < 0 {
        assert s[..i2][i0] == '-';
      }
    }
  }

  lemma StrToLOfDec(n: int, rest: string)
    requires rest == [] || !IsDigit(rest[0])
    ensures StrToL(IntToDec(n) + rest) == (n, |IntToDec(n)|)
  {
    var m := if n < 0 then -n else n;
    var d := NatToDec(m);
    var s := IntToDec(n) + rest;
    var i1 := if n < 0 then 1 else 0;
    var e := |IntToDec(n)|;
    assert e == i1 + |d|;
    assert s[i1..e] == d;
    assert !IsSpace(s[0]);
    assert SkipSpaces(s, 0) == 0;
    assert s[0] == '-' <==> n < 0;
    DigitsRun(s, i1, e);
    DecRoundTrip(m);
    assert DecValue(s[i1..e]) == m;
  }

  lemma {:induction false} DigitsRun(s: string, i: nat, j: nat)
    requires i <= j <= |s|
    requires AllDigits(s[i..j])
    requires j < |s| ==> !IsDigit(s[j])
    ensures DigitsEnd(s, i) == j
    decreases j - i
  {
    if i < j {
      assert IsDigit(s[i..j][0]);
      assert s[i + 1..j] == s[i..j][1..];
      DigitsRun(s, i + 1, j);
    }
  }

  // ---------------------------------------------------------------------------
  // Searching and replacing

  predicate IsPrefix(p: string, s: string) { |p| <= |s| && s[..|p|] == p }

  predicate OccursAt(s: string, pat: string, i: int)
  {
    0 <= i <= |s| - |pat| && s[i..i + |pat|] == pat
  }

  /** `strstr(s, pat) != NULL`. */
  predicate Contains(s: string, pat: string)
  {
    exists i | 0 <= i <= |s| - |pat| :: OccursAt(s, pat, i)
  }

  /** Every occurrence of `pat`, scanned left to right, replaced by `rep`. */
  function ReplaceAll(s: string, pat: string, rep: string): (r: string)
    requires |pat| > 0
    ensures rep == pat ==> r == s
    ensures |s| < |pat| ==> r == s
    decreases |s|
  {
    if |s| < |pat| then s
    else if IsPrefix(pat, s) then
      assert s == s[..|pat|] + s[|pat|..];
      rep + ReplaceAll(s[|pat|..], pat, rep)
    else [s[0]] + ReplaceAll(s[1..], pat, rep)
  }

  lemma {:induction false} ReplaceAllAbsent(s: string, pat: string, rep: string)
    requires |pat| > 0 && !Contains(s, pat)
    ensures ReplaceAll(s, pat, rep) == s
    decreases |s|
  {
    if |s| >= |pat| {
      assert !OccursAt(s, pat, 0);
      assert s[0..|pat|] == s[..|pat|];
      assert !IsPrefix(pat, s);
      forall i | 0 <= i <= |s| - 1 - |pat|
        ensures !OccursAt(s[1..], pat, i)
      {
        assert !OccursAt(s, pat, i + 1);
        assert s[1..][i..i + |pat|] == s[i + 1..i + 1 + |pat|];
      }
      ReplaceAllAbsent(s[1..], pat, rep);
    }
  }

  /** A literal prefix free of the pattern's first character is copied
      through unchanged. */
  lemma {:induction false} ReplaceAllLiteral(lit: string, pat: string, rep: string, rest: string)
    requires |pat| > 0 && pat[0] !in lit
    ensures ReplaceAll(lit + rest, pat, rep) == lit + ReplaceAll(rest, pat, rep)
    decreases |lit|
  {
    if |lit| > 0 {
      var tail := lit[1..] + rest;
      assert lit + rest == [lit[0]] + tail;
      assert lit == [lit[0]] + lit[1..];
      ReplaceAllLiteral(lit[1..], pat, rep, rest);
      if |tail| + 1 >= |pat| {
        ReplaceAllSkip(lit[0], tail, pat, rep);
      } else {
        assert ReplaceAll(tail, pat, rep) == tail;
        assert ReplaceAll(lit + rest, pat, rep) == lit + rest;
      }
      assert ReplaceAll(lit + rest, pat, rep) == [lit[0]] + (lit[1..] + ReplaceAll(rest, pat, rep));
    } else {
      assert lit + rest == rest;
    }
  }

  lemma Associate(a: string, b: string, c: string)
    ensures a + b + c == a + (b + c)
  {
  }

  lemma ReplaceAllAtPrefix(pat: string, rep: string, rest: string)
    requires |pat| > 0
    ensures ReplaceAll(pat + rest, pat, rep) == rep + ReplaceAll(rest, pat, rep)
  {
    var s := pat + rest;
    assert s[..|pat|] == pat;
    assert s[|pat|..] == rest;
  }

  lemma ReplaceAllSkip(c: char, tail: string, pat: string, rep: string)
    requires |pat| > 0 && c != pat[0] && |tail| + 1 >= |pat|
    ensures ReplaceAll([c] + tail, pat, rep) == [c] + ReplaceAll(tail, pat, rep)
  {
    var s := [c] + tail;
    assert s[..|pat|][0] == c;
    assert !IsPrefix(pat, s);
    assert s[1..] == tail;
  }

  /** Per-character substitution: every character in `bad` becomes `by`. */
  function Sanitize(s: string, bad: set<char>, sub: char): (r: string)
    ensures |r| == |s|
    ensures forall i :: 0 <= i < |s| ==> r[i] == (if s[i] in bad then sub else s[i])
  {
    if |s| == 0 then "" else [if s[0] in bad then sub else s[0]] + Sanitize(s[1..], bad, sub)
  }

  lemma SanitizeRemoves(s: string, bad: set<char>, sub: char, c: char)
    requires c in bad && sub !in bad
    ensures c !in Sanitize(s, bad, sub)
  {
    var r := Sanitize(s, bad, sub);
    forall i | 0 <= i < |r| ensures r[i] != c {}
  }

  // ---------------------------------------------------------------------------
  // apr_strtok: the non-empty runs between separators

  function IndexOf(s: string, c: char): (k: nat)
    ensures k <= |s| && c !in s[..k]
    ensures k < |s| ==> s[k] == c
  {
    if |s| == 0 then 0 else if s[0] == c then 0 else 1 + IndexOf(s[1..], c)
  }

  /** The tokens `apr_strtok(s, sep)` returns, in order: leading and repeated
      separators are skipped and never produce an empty token. */
  function Tokens(s: string, sep: char): (toks: seq<string>)
    ensures forall t :: t in toks ==> |t| > 0 && sep !in t
    decreases |s|
  {
    if |s| == 0 then []
    else if s[0] == sep then Tokens(s[1..], sep)
    else
      var k := IndexOf(s, sep);
      [s[..k]] + Tokens(s[k..], sep)
  }

  function Count(s: string, c: char): nat
  {
    if |s| == 0 then 0 else (if s[0] == c then 1 else 0) + Count(s[1..], c)
  }

  lemma {:induction false} CountSplit(a: string, b: string, c: char)
    ensures Count(a + b, c) == Count(a, c) + Count(b, c)
    decreases |a|
  {
    if |a| > 0 {
      assert (a + b)[1..] == a[1..] + b;
      CountSplit(a[1..], b, c);
    } else {
      assert a + b == b;
    }
  }

  lemma CountAbsent(s: string, c: char)
    requires c !in s
    ensures Count(s, c) == 0
  {
    if |s| > 0 {
      assert c !in s[1..];
      CountAbsent(s[1..], c);
    }
  }

  /** There are never more tokens than separators plus one, so the array of
      `count(sep) + 1` slots the caller allocates is large enough. */
  lemma {:induction false} TokensBound(s: string, sep: char)
    ensures |Tokens(s, sep)| <= Count(s, sep) + 1
    ensures |s| > 0 && s[0] == sep ==> |Tokens(s, sep)| <= Count(s, sep)
    decreases |s|
  {
    if |s| > 0 {
      if s[0] == sep {
        TokensBound(s[1..], sep);
      } else {
        var k := IndexOf(s, sep);
        assert s == s[..k] + s[k..];
        CountSplit(s[..k], s[k..], sep);
        CountAbsent(s[..k], sep);
        TokensBound(s[k..], sep);
      }
    }
  }

  /** A separator followed by a token followed by the rest of the string. */
  lemma TokensCons(t: string, rest: string, sep: char)
    requires |t| > 0 && sep !in t
    requires rest == [] || rest[0] == sep
    ensures Tokens([sep] + t + rest, sep) == [t] + Tokens(rest, sep)
  {
    var s := [sep] + t + rest;
    assert s[1..] == t + rest;
    var u := t + rest;
    IndexOfAfterRun(t, rest, sep);
    assert u[..|t|] == t;
    assert u[|t|..] == rest;
  }

  /** Two tokens joined by one separator come back as they were. */
  lemma TwoTokens(a: string, b: string, sep: char)
    requires |a| > 0 && |b| > 0 && sep !in a && sep !in b
    ensures Tokens(a + [sep] + b, sep) == [a, b]
  {
    var s := a + [sep] + b;
    var rest := [sep] + b;
    assert s == a + rest;
    assert s[0] == a[0];
    IndexOfAfterRun(a, rest, sep);
    assert s[..|a|] == a && s[|a|..] == rest;
    TokensCons(b, [], sep);
    assert [sep] + b + [] == rest;
  }

  lemma {:induction false} IndexOfAfterRun(t: string, rest: string, sep: char)
    requires sep !in t
    requires rest == [] || rest[0] == sep
    ensures IndexOf(t + rest, sep) == |t|
    decreases |t|
  {
    if |t| > 0 {
      assert (t + rest)[1..] == t[1..] + rest;
      IndexOfAfterRun(t[1..], rest, sep);
    } else {
      assert t + rest == rest;
    }
  }

  /** A string cut at a separator that neither left part contains splits uniquely. */
  lemma SplitUnique(a: string, b: string, a': string, b': string, c: char)
    requires c !in a && c !in a'
    requires a + [c] + b == a' + [c] + b'
    ensures a == a' && b == b'
  {
    var s := a + [c] + b;
    assert IndexOf(s, c) == |a| by { IndexOfAfterRun(a, [c] + b, c); assert s == a + ([c] + b); }
    assert IndexOf(s, c) == |a'| by { IndexOfAfterRun(a', [c] + b', c); assert s == a' + ([c] + b'); }
    assert a == s[..|a|] && a' == s[..|a'|];
    assert b == s[|a| + 1..] && b' == s[|a'| + 1..];
  }

  // ---------------------------------------------------------------------------
  // Paths of '/'-separated pieces holding numbers

  /** `strtol` consumed the whole token. */
  predicate FullInt(t: string) { StrToL(t).1 == |t| }

  /** `strtol` stopped at a '.'. */
  predicate DotAfterInt(t: string) { StrToL(t).1 < |t| && t[StrToL(t).1] == '.' }

  lemma NoSlashInDec(n: int)
    ensures '/' !in IntToDec(n)
  {
    var s := IntToDec(n);
    forall i | 0 <= i < |s| ensures s[i] != '/' {
      if n >= 0 {
        assert IsDigit(s[i]);
      } else if i > 0 {
        assert s[i] == NatToDec(-n)[i - 1];
        assert IsDigit(NatToDec(-n)[i - 1]);
      }
    }
  }

  lemma NoSlashInLast(y: int, ext: string)
    requires '/' !in ext
    ensures '/' !in IntToDec(y) + "." + ext
  {
    NoSlashInDec(y);
    var d := IntToDec(y) + ".";
    var t := d + ext;
    forall i | 0 <= i < |t| ensures t[i] != '/' {
      if i < |d| {
        assert t[i] == d[i];
      } else {
        assert t[i] == ext[i - |d|];
      }
    }
  }

  /** A path piece "/t" in front of a rest that is empty or starts a new
      piece yields the token t. */
  lemma SlashPiece(t: string, rest: string)
    requires |t| > 0 && '/' !in t
    requires rest == [] || rest[0] == '/'
    ensures |"/" + t + rest| > 0 && ("/" + t + rest)[0] == '/'
    ensures Tokens("/" + t + rest, '/') == [t] + Tokens(rest, '/')
  {
    TokensCons(t, rest, '/');
  }

  lemma TwoPieces(t4: string, t5: string)
    requires |t4| > 0 && |t5| > 0 && '/' !in t4 && '/' !in t5
    ensures Tokens("/" + t4 + ("/" + t5), '/') == [t4, t5]
  {
    assert "/" + t5 == "/" + t5 + [];
    SlashPiece(t5, []);
    SlashPiece(t4, "/" + t5);
  }

  lemma ThreePieces(t3: string, t4: string, t5: string)
    requires |t3| > 0 && |t4| > 0 && |t5| > 0 && '/' !in t3 && '/' !in t4 && '/' !in t5
    ensures Tokens("/" + t3 + ("/" + t4 + ("/" + t5)), '/') == [t3, t4, t5]
  {
    TwoPieces(t4, t5);
    SlashPiece(t3, "/" + t4 + ("/" + t5));
  }

  lemma FourPieces(t2: string, t3: string, t4: string, t5: string)
    requires |t2| > 0 && |t3| > 0 && |t4| > 0 && |t5| > 0
    requires '/' !in t2 && '/' !in t3 && '/' !in t4 && '/' !in t5
    ensures Tokens("/" + t2 + ("/" + t3 + ("/" + t4 + ("/" + t5))), '/') == [t2, t3, t4, t5]
  {
    ThreePieces(t3, t4, t5);
    SlashPiece(t2, "/" + t3 + ("/" + t4 + ("/" + t5)));
  }

  /** Five pieces each behind one '/' are five tokens. */
  lemma FivePieces(t1: string, t2: string, t3: string, t4: string, t5: string)
    requires |t1| > 0 && |t2| > 0 && |t3| > 0 && |t4| > 0 && |t5| > 0
    requires '/' !in t1 && '/' !in t2 && '/' !in t3 && '/' !in t4 && '/' !in t5
    ensures Tokens("/" + t1 + ("/" + t2 + ("/" + t3 + ("/" + t4 + ("/" + t5)))), '/') == [t1, t2, t3, t4, t5]
  {
    FourPieces(t2, t3, t4, t5);
    SlashPiece(t1, "/" + t2 + ("/" + t3 + ("/" + t4 + ("/" + t5))));
  }

  /** A number in decimal is one whole integer token. */
  lemma DecToken(n: int)
    ensures FullInt(IntToDec(n)) && StrToL(IntToDec(n)).0 == n
  {
    assert IntToDec(n) + [] == IntToDec(n);
    StrToLOfDec(n, []);
  }

  /** A number in decimal followed by "." and an extension is a y token. */
  lemma DecDotToken(n: int, ext: string)
    ensures DotAfterInt(IntToDec(n) + "." + ext) && StrToL(IntToDec(n) + "." + ext).0 == n
  {
    assert IntToDec(n) + ("." + ext) == IntToDec(n) + "." + ext;
    StrToLOfDec(n, "." + ext);
  }
}
