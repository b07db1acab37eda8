/**
 * The record string of `getModelInfoNative` in llama_jni.cpp.
 *
 * The description comes from `llama_model_desc` writing into a 256-byte
 * buffer; the parameter count and the size are unsigned numbers rendered
 * by `std::to_string`. The record is built by concatenation: nothing in
 * the description is escaped.
 */
module ModelInfo {
  import opened Wrappers

  // ---------------------------------------------------------------------------
  // Decimal numbers
  // ---------------------------------------------------------------------------

  predicate IsDigit(c: char)
  {
    '0' <= c <= '9'
  }

  predicate AllDigits(s: string)
  {
    forall i :: 0 <= i < |s| ==> IsDigit(s[i])
  }

  function DigitChar(d: nat): (c: char)
    requires d < 10
    ensures IsDigit(c) && c as int - '0' as int == d
  {
    ('0' as int + d) as char
  }

  function DigitValue(c: char): (d: nat)
    requires IsDigit(c)
    ensures d < 10 && DigitChar(d) == c
  {
    c as int - '0' as int
  }

  /** `std::to_string` of an unsigned number: at least one decimal digit and
      no leading zero. */
  function Decimal(n: nat): (s: string)
    ensures |s| > 0 && AllDigits(s)
    ensures |s| > 1 ==> s[0] != '0'
    ensures n < 10 <==> |s| == 1
    decreases n
  {
    if n < 10 then [DigitChar(n)]
    else
      var high := Decimal(n / 10);
      assert |high| == 1 ==> high[0] == DigitChar(n / 10);
      high + [DigitChar(n % 10)]
  }

  /** The value of a string of decimal digits. */
  function ParseDecimal(s: string): nat
    requires AllDigits(s)
    decreases |s|
  {
    if s == [] then 0 else ParseDecimal(s[..|s| - 1]) * 10 + DigitValue(s[|s| - 1])
  }

  /** Reading back a rendered number gives the number. */
  lemma {:induction false} DecimalRoundTrip(n: nat)
    ensures ParseDecimal(Decimal(n)) == n
    decreases n
  {
    var s := Decimal(n);
    if n >= 10 {
      DecimalRoundTrip(n / 10);
      assert s[..|s| - 1] == Decimal(n / 10);
    } else {
      assert s[..0] == [];
    }
  }

  // ---------------------------------------------------------------------------
  // The description buffer
  // ---------------------------------------------------------------------------

  /** The string a C buffer holds: everything before its first NUL. */
  function CString(buf: string): (s: string)
    ensures |s| <= |buf| && s == buf[..|s|]
    ensures forall i :: 0 <= i < |s| ==> s[i] != '\0'
    ensures |s| < |buf| ==> buf[|s|] == '\0'
    decreases |buf|
  {
    if buf == [] || buf[0] == '\0' then []
    else [buf[0]] + CString(buf[1..])
  }

  /** The description as read back from `char desc[256]`: the text
      `llama_model_desc` formats, cut to the 255 bytes (one `char` each)
      that fit before the terminating NUL, and ending at any NUL inside it. */
  function Description(text: string): (d: string)
    ensures |d| <= 255 && |d| <= |text| && d == text[..|d|]
    ensures forall i :: 0 <= i < |d| ==> d[i] != '\0'
    ensures |text| <= 255 && (forall i :: 0 <= i < |text| ==> text[i] != '\0') ==> d == text
  {
    var cut := if |text| <= 255 then text else text[..255];
    assert |text| <= 255 ==> cut == text;
    CString(cut)
  }

  // ---------------------------------------------------------------------------
  // The record
  // ---------------------------------------------------------------------------

  const Head := "{\"description\":\""
  const Mid := "\",\"n_params\":"
  const Tail := ",\"size\":"

  /** `getModelInfoNative`: "{}" for a null handle, otherwise the three
      fields in the order description, n_params, size. */
  function InfoJson(modelPtr: int, text: string, nParams: nat, size: nat): (r: string)
    ensures modelPtr == 0 <==> r == "{}"
    ensures |r| >= 2 && r[0] == '{' && r[|r| - 1] == '}'
  {
    if modelPtr == 0 then "{}"
    else
      var r := Head + Description(text) + After(nParams, size);
      assert r[0] == Head[0];
      assert |r| > |Head| + 2;
      r
  }

  datatype Info = Info(description: string, nParams: nat, size: nat)

  /** The index of the first occurrence of c in s. */
  function Find(s: string, c: char): (r: Option<nat>)
    ensures r.Some? ==> r.value < |s| && s[r.value] == c && forall k :: 0 <= k < r.value ==> s[k] != c
    ensures r.None? ==> forall k :: 0 <= k < |s| ==> s[k] != c
    decreases |s|
  {
    if s == [] then None
    else if s[0] == c then Some(0)
    else
      match Find(s[1..], c)
      case None => None
      case Some(i) => Some(i + 1)
  }

  predicate StartsWith(s: string, prefix: string)
  {
    |prefix| <= |s| && s[..|prefix|] == prefix
  }

  /** A reader of the record: the description runs to the first quote, and
      the two numbers follow it. */
  function ParseInfo(s: string): Option<Info>
  {
    if !StartsWith(s, Head) then None
    else
      var r1 := s[|Head|..];
      match Find(r1, '"')
      case None => None
      case Some(i) =>
        match ParseNumbers(r1[i..])
        case None => None
        case Some(numbers) => Some(Info(r1[..i], numbers.0, numbers.1))
  }

  /** The record from the quote closing the description on: the parameter
      count runs to the first comma, and the size to the closing brace. */
  function ParseNumbers(r2: string): Option<(nat, nat)>
  {
    if !StartsWith(r2, Mid) then None
    else
      var r3 := r2[|Mid|..];
      match Find(r3, ',')
      case None => None
      case Some(j) =>
        var count := r3[..j];
        var r4 := r3[j..];
        if !AllDigits(count) || count == [] || !StartsWith(r4, Tail) then None
        else
          var r5 := r4[|Tail|..];
          if |r5| < 2 || r5[|r5| - 1] != '}' || !AllDigits(r5[..|r5| - 1]) then None
          else Some((ParseDecimal(count), ParseDecimal(r5[..|r5| - 1])))
  }

  lemma StartsWithAppend(p: string, q: string)
    ensures StartsWith(p + q, p) && (p + q)[|p|..] == q
  {
    assert (p + q)[..|p|] == p;
  }

  lemma FindAt(a: string, b: string, c: char)
    requires forall k :: 0 <= k < |a| ==> a[k] != c
    requires |b| > 0 && b[0] == c
    ensures Find(a + b, c) == Some(|a|)
  {
    assert (a + b)[|a|] == c;
  }

  /** The text after the description in a record. */
  function After(nParams: nat, size: nat): string
  {
    Mid + Decimal(nParams) + Tail + Decimal(size) + "}"
  }

  /** The text after the description reads back as the two numbers. */
  lemma NumbersRoundTrip(nParams: nat, size: nat)
    ensures ParseNumbers(After(nParams, size)) == Some((nParams, size))
  {
    var n, m := Decimal(nParams), Decimal(size);
    var rest := Tail + m + "}";
    assert After(nParams, size) == Mid + (n + rest);
    StartsWithAppend(Mid, n + rest);
    assert rest[0] == ',';
    FindAt(n, rest, ',');
    var r3 := n + rest;
    assert r3[..|n|] == n && r3[|n|..] == rest;
    SizeTail(m);
    DecimalRoundTrip(nParams);
    DecimalRoundTrip(size);
  }

  lemma SizeTail(m: string)
    ensures var r4 := Tail + m + "}";
      StartsWith(r4, Tail) && r4[|Tail|..] == m + "}" && (m + "}")[..|m|] == m
  {
    assert Tail + m + "}" == Tail + (m + "}");
    StartsWithAppend(Tail, m + "}");
  }

  /** A record whose description holds no double quote splits at the quote
      that follows the description. */
  lemma ParseAfterHead(d: string, after: string, nParams: nat, size: nat)
    requires forall i :: 0 <= i < |d| ==> d[i] != '"'
    requires |after| > 0 && after[0] == '"' && ParseNumbers(after) == Some((nParams, size))
    ensures ParseInfo(Head + (d + after)) == Some(Info(d, nParams, size))
  {
    var s := Head + (d + after);
    StartsWithAppend(Head, d + after);
    var r1 := s[|Head|..];
    assert r1 == d + after;
    FindAt(d, after, '"');
    assert r1[..|d|] == d && r1[|d|..] == after;
  }

  /** The record of a non-null handle: the head, the description and the
      numbers. */
  lemma InfoJsonShape(modelPtr: int, text: string, nParams: nat, size: nat)
    requires modelPtr != 0
    ensures InfoJson(modelPtr, text, nParams, size) == Head + (Description(text) + After(nParams, size))
    ensures After(nParams, size)[0] == '"'
  {
    var d, after := Description(text), After(nParams, size);
    assert InfoJson(modelPtr, text, nParams, size) == Head + d + after;
    Associative(Head, d, after);
    assert after == Mid + (Decimal(nParams) + Tail + Decimal(size) + "}");
  }

  lemma Associative<T>(a: seq<T>, b: seq<T>, c: seq<T>)
    ensures a + b + c == a + (b + c)
  {
  }

  /** A description without a double quote reads back from the record
      unchanged, and so do both numbers. */
  lemma InfoRoundTrip(modelPtr: int, text: string, nParams: nat, size: nat)
    requires modelPtr != 0
    requires forall i :: 0 <= i < |Description(text)| ==> Description(text)[i] != '"'
    ensures ParseInfo(InfoJson(modelPtr, text, nParams, size)) == Some(Info(Description(text), nParams, size))
  {
    InfoJsonShape(modelPtr, text, nParams, size);
    NumbersRoundTrip(nParams, size);
    ParseAfterHead(Description(text), After(nParams, size), nParams, size);
  }

  /** A description is read up to the first double quote after the head. */
  lemma QuoteEndsDescription(d: string, after: string, q: nat)
    requires q < |d| && d[q] == '"'
    ensures var r := ParseInfo(Head + (d + after)); r.Some? ==> |r.value.description| <= q
  {
    var s := Head + (d + after);
    StartsWithAppend(Head, d + after);
    var r1 := s[|Head|..];
    assert r1[q] == '"';
    var f := Find(r1, '"');
    assert f.Some? && f.value <= q;
  }

  /** The description is not escaped: when it holds a double quote, the
      record does not read back as that description. */
  lemma QuoteBreaksRecord(modelPtr: int, text: string, nParams: nat, size: nat, q: nat)
    requires modelPtr != 0 && q < |Description(text)| && Description(text)[q] == '"'
    ensures ParseInfo(InfoJson(modelPtr, text, nParams, size)) != Some(Info(Description(text), nParams, size))
  {
    InfoJsonShape(modelPtr, text, nParams, size);
    QuoteEndsDescription(Description(text), After(nParams, size), q);
  }
}
