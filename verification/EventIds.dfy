/** Event ids of resumable streams and their text form
    (crates/rmcp/src/transport/streamable_http_server/session.rs). */
module EventIds {
  import opened JsonRpc

  datatype EventId = EventId(httpRequestId: Option<nat>, index: nat)
  {
    /** Both numbers fit their 64-bit types. */
    predicate InRange() {
      index < U64_LIMIT && (httpRequestId.Some? ==> httpRequestId.value < U64_LIMIT)
    }
  }

  datatype IntError = Empty | InvalidDigit | PosOverflow

  predicate IsDigit(c: char) {
    '0' <= c <= '9'
  }

  function DigitValue(c: char): (v: nat)
    requires IsDigit(c)
    ensures v < 10
  {
    c as int - '0' as int
  }

  predicate IsDigits(s: string) {
    forall k :: 0 <= k < |s| ==> IsDigit(s[k])
  }

  /** The number a string of decimal digits stands for. */
  function Value(s: string): nat
    requires IsDigits(s)
  {
    if s == [] then 0 else 10 * Value(s[..|s| - 1]) + DigitValue(s[|s| - 1])
  }

  /** Decimal display, without leading zeros. */
  function Show(n: nat): string {
    if n < 10 then [('0' as int + n) as char] else Show(n / 10) + [('0' as int + n % 10) as char]
  }

  /** One left-to-right pass with an accumulator, as `from_str` on a 64-bit
      unsigned integer: a bad digit is noticed before an overflow it would cause. */
  function ParseDigits(s: string, acc: nat): Result<nat, IntError> {
    if s == [] then Ok(acc)
    else if !IsDigit(s[0]) then Err(InvalidDigit)
    else
      var next := 10 * acc + DigitValue(s[0]);
      if next >= U64_LIMIT then Err(PosOverflow) else ParseDigits(s[1..], next)
  }

  function ParseU64(s: string): Result<nat, IntError> {
    if s == [] then Err(Empty)
    else if s[0] == '+' then if |s| == 1 then Err(InvalidDigit) else ParseDigits(s[1..], 0)
    else ParseDigits(s, 0)
  }

  lemma {:induction false} ShowIsDigits(n: nat)
    ensures IsDigits(Show(n)) && Show(n) != []
    ensures Value(Show(n)) == n
    ensures |Show(n)| > 1 ==> Show(n)[0] != '0'
  {
    if n >= 10 {
      ShowIsDigits(n / 10);
      assert Show(n)[..|Show(n)| - 1] == Show(n / 10);
      if |Show(n / 10)| == 1 {
        assert Show(n / 10)[..0] == [];
        assert Value(Show(n / 10)) == DigitValue(Show(n / 10)[0]);
      }
    } else {
      assert Show(n)[..0] == [];
    }
  }

  lemma {:induction false} ValueGrows(s: string, k: nat)
    requires IsDigits(s) && k <= |s|
    ensures Value(s[..k]) <= Value(s)
    decreases |s|
  {
    if k == |s| {
      assert s[..k] == s;
    } else {
      ValueGrows(s[..|s| - 1], k);
      assert s[..|s| - 1][..k] == s[..k];
    }
  }

  lemma ValueSnoc(s: string, k: nat)
    requires k < |s| && IsDigits(s[..k]) && IsDigit(s[k])
    ensures IsDigits(s[..k + 1]) && Value(s[..k + 1]) == 10 * Value(s[..k]) + DigitValue(s[k])
  {
    var more := s[..k + 1];
    assert more[..k] == s[..k] && more[k] == s[k];
  }

  /** What is left to parse starts with the next character. */
  lemma ParseNext(s: string, k: nat, acc: nat)
    requires k < |s|
    ensures ParseDigits(s[k..], acc) ==
      if !IsDigit(s[k]) then Err(InvalidDigit)
      else if 10 * acc + DigitValue(s[k]) >= U64_LIMIT then Err(PosOverflow)
      else ParseDigits(s[k + 1..], 10 * acc + DigitValue(s[k]))
  {
    assert s[k..][0] == s[k] && s[k..][1..] == s[k + 1..];
  }

  /** The accumulating pass succeeds exactly on digit strings in range, with their value. */
  lemma {:induction false} ParseDigitsIsValue(s: string, k: nat, acc: nat)
    requires k <= |s| && acc < U64_LIMIT
    requires IsDigits(s[..k]) && Value(s[..k]) == acc
    ensures ParseDigits(s[k..], acc).Ok? <==> IsDigits(s) && Value(s) < U64_LIMIT
    ensures ParseDigits(s[k..], acc).Ok? ==> ParseDigits(s[k..], acc).value == Value(s)
    decreases |s| - k
  {
    if k == |s| {
      assert s[..k] == s;
    } else {
      ParseNext(s, k, acc);
      if IsDigit(s[k]) {
        ValueSnoc(s, k);
        if 10 * acc + DigitValue(s[k]) < U64_LIMIT {
          ParseDigitsIsValue(s, k + 1, 10 * acc + DigitValue(s[k]));
        } else if IsDigits(s) {
          ValueGrows(s, k + 1);
        }
      }
    }
  }

  /** The digits of a numeral, behind its optional plus sign. */
  function Unsigned(s: string): string {
    if s != [] && s[0] == '+' then s[1..] else s
  }

  /** Parsing accepts exactly the numerals in range, and yields their value. */
  lemma ParseU64IsValue(s: string)
    ensures ParseU64(s).Ok? <==> Unsigned(s) != [] && IsDigits(Unsigned(s)) && Value(Unsigned(s)) < U64_LIMIT
    ensures ParseU64(s).Ok? ==> ParseU64(s).value == Value(Unsigned(s))
  {
    var u := Unsigned(s);
    ParseDigitsIsValue(u, 0, 0);
    assert u[0..] == u;
  }

  lemma ParseShow(n: nat)
    ensures ParseU64(Show(n)).Ok? <==> n < U64_LIMIT
    ensures n < U64_LIMIT ==> ParseU64(Show(n)) == Ok(n)
  {
    ShowIsDigits(n);
    ParseU64IsValue(Show(n));
    assert IsDigit(Show(n)[0]);
  }

  /** A numeral as it is displayed: digits only, no leading zero. */
  predicate Canonical(s: string) {
    s != [] && IsDigits(s) && (|s| > 1 ==> s[0] != '0')
  }

  /** Display undoes parsing exactly on canonical numerals. */
  lemma {:induction false} ShowValue(s: string)
    requires Canonical(s)
    ensures Show(Value(s)) == s
  {
    var init := s[..|s| - 1];
    if |s| == 1 {
      assert init == [];
    } else {
      ShowValue(init);
      PositiveValue(init);
      assert s == init + [s[|s| - 1]];
    }
  }

  lemma {:induction false} PositiveValue(s: string)
    requires s != [] && IsDigits(s) && s[0] != '0'
    ensures Value(s) >= 1
  {
    if |s| > 1 {
      PositiveValue(s[..|s| - 1]);
    } else {
      assert s[..0] == [];
    }
  }

  lemma ShowParse(s: string)
    requires ParseU64(s).Ok?
    ensures Show(ParseU64(s).value) == s <==> Canonical(s)
  {
    ParseU64IsValue(s);
    ShowIsDigits(ParseU64(s).value);
    if Canonical(s) {
      assert IsDigit(s[0]);
      ShowValue(s);
    }
  }

  // Display and FromStr of `EventId`

  function ToString(e: EventId): string {
    Show(e.index) + if e.httpRequestId.Some? then "/" + Show(e.httpRequestId.value) else ""
  }

  /** The position of the first slash, or the length of `s`. */
  function FirstSlash(s: string): (k: nat)
    ensures k <= |s|
    ensures forall i :: 0 <= i < k ==> s[i] != '/'
    ensures k < |s| ==> s[k] == '/'
  {
    if s == [] || s[0] == '/' then 0 else 1 + FirstSlash(s[1..])
  }

  /** Both numbers report their failure as an invalid index. */
  function FromString(s: string): Result<EventId, IntError> {
    var k := FirstSlash(s);
    if k < |s| then
      match ParseU64(s[..k])
      case Err(e) => Err(e)
      case Ok(index) =>
        match ParseU64(s[k + 1..])
        case Err(e) => Err(e)
        case Ok(id) => Ok(EventId(Some(id), index))
    else
      match ParseU64(s)
      case Err(e) => Err(e)
      case Ok(index) => Ok(EventId(None, index))
  }

  lemma SlashAfterDigits(digits: string, rest: string)
    requires IsDigits(digits) && (rest == [] || rest[0] == '/')
    ensures FirstSlash(digits + rest) == |digits|
  {
    var s := digits + rest;
    assert forall i :: 0 <= i < |digits| ==> s[i] == digits[i] && IsDigit(s[i]);
    assert rest != [] ==> s[|digits|] == '/';
  }

  /** Parsing undoes printing, exactly for the ids whose numbers fit 64 bits. */
  lemma RoundTrip(e: EventId)
    ensures FromString(ToString(e)) == Ok(e) <==> e.InRange()
    ensures FromString(ToString(e)).Ok? <==> e.InRange()
  {
    ShowIsDigits(e.index);
    ParseShow(e.index);
    if e.httpRequestId.Some? {
      ParseShow(e.httpRequestId.value);
      SplitText(e);
    } else {
      SlashAfterDigits(Show(e.index), "");
      assert Show(e.index) + "" == Show(e.index);
    }
  }

  lemma SplitText(e: EventId)
    requires e.httpRequestId.Some?
    ensures
      var s, k := ToString(e), |Show(e.index)|;
      FirstSlash(s) == k < |s| && s[..k] == Show(e.index) && s[k + 1..] == Show(e.httpRequestId.value)
  {
    ShowIsDigits(e.index);
    SlashAfterDigits(Show(e.index), "/" + Show(e.httpRequestId.value));
  }

  /** Distinct events have distinct ids on the wire. */
  lemma Injective(e: EventId, f: EventId)
    requires e.InRange() && f.InRange() && ToString(e) == ToString(f)
    ensures e == f
  {
    RoundTrip(e);
    RoundTrip(f);
  }

  predicate CanonicalId(s: string) {
    var k := FirstSlash(s);
    if k < |s| then Canonical(s[..k]) && Canonical(s[k + 1..]) else Canonical(s)
  }

  /** Printing undoes parsing, exactly for canonical ids. */
  lemma Reprints(s: string)
    requires FromString(s).Ok?
    ensures ToString(FromString(s).value) == s <==> CanonicalId(s)
  {
    var k := FirstSlash(s);
    var e := FromString(s).value;
    if k < |s| {
      assert s == s[..k] + ("/" + s[k + 1..]);
      ShowParse(s[..k]);
      ShowParse(s[k + 1..]);
      if ToString(e) == s {
        ShowIsDigits(e.index);
        SlashAfterDigits(Show(e.index), "/" + Show(e.httpRequestId.value));
        assert s[..k] == Show(e.index);
        assert s[k + 1..] == Show(e.httpRequestId.value);
      }
    } else {
      ShowParse(s);
      assert Show(e.index) + "" == Show(e.index);
    }
  }

  predicate Numeral(s: string) {
    Unsigned(s) != [] && IsDigits(Unsigned(s)) && Value(Unsigned(s)) < U64_LIMIT
  }

  /** Without a slash the text is an index. */
  lemma FromIndex(s: string)
    requires '/' !in s
    ensures FromString(s).Ok? <==> Numeral(s)
    ensures FromString(s).Ok? ==> FromString(s).value == EventId(None, Value(Unsigned(s)))
  {
    ParseU64IsValue(s);
    NoSlash(s);
  }

  lemma NoSlash(s: string)
    requires '/' !in s
    ensures FirstSlash(s) == |s|
  {
    assert forall i :: 0 <= i < |s| ==> s[i] in s;
  }

  lemma SlashBetween(index: string, id: string)
    requires '/' !in index
    ensures FirstSlash(index + "/" + id) == |index|
    decreases |index|
  {
    if index == [] {
      assert (index + "/" + id)[0] == '/';
    } else {
      assert (index + "/" + id)[0] == index[0];
      assert (index + "/" + id)[1..] == index[1..] + "/" + id;
      SlashBetween(index[1..], id);
    }
  }

  /** With one, what stands before the first is the index, and all that stands behind
      it the request's number; a fault of the index is reported first. */
  lemma FromPair(index: string, id: string)
    requires '/' !in index
    ensures
      var e := FromString(index + "/" + id);
      && (e.Ok? <==> Numeral(index) && Numeral(id))
      && (e.Ok? ==> e.value == EventId(Some(Value(Unsigned(id))), Value(Unsigned(index))))
      && (!Numeral(index) ==> ParseU64(index).Err? && e == Err(ParseU64(index).error))
      && (Numeral(index) && !Numeral(id) ==> ParseU64(id).Err? && e == Err(ParseU64(id).error))
  {
    var s := index + "/" + id;
    SlashBetween(index, id);
    assert s[..|index|] == index && s[|index| + 1..] == id;
    ParseU64IsValue(index);
    ParseU64IsValue(id);
  }

  lemma ShowThirteen()
    ensures Show(13) == "13" && Show(7) == "7"
  {
    assert Show(13) == Show(1) + "3";
  }

  /** How ids are written. */
  lemma WrittenIds()
    ensures ToString(EventId(Some(7), 13)) == "13/7" && FromString("13/7") == Ok(EventId(Some(7), 13))
    ensures ToString(EventId(None, 13)) == "13" && FromString("13") == Ok(EventId(None, 13))
  {
    ShowThirteen();
    RoundTrip(EventId(Some(7), 13));
    RoundTrip(EventId(None, 13));
    assert "13" + ("/" + "7") == "13/7" && "13" + "" == "13";
  }

  /** And two texts that are no ids. */
  lemma NotIds()
    ensures FromString("3/x") == Err(InvalidDigit) && FromString("/") == Err(Empty)
  {
    FromPair("3", "x");
    FromPair("", "");
    assert "3" + "/" + "x" == "3/x" && "3"[..0] == "" && "" + "/" + "" == "/";
  }
}
