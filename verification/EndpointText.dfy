/** "host:port" text: Endpoint::to_string and the parse_endpoint that signaling
    clients and the engine share. */
module EndpointText {
  import opened Octets

  const COLON: byte := 58
  const ZERO: byte := 48
  const ULONG_MAX: nat := 0xFFFF_FFFF_FFFF_FFFF

  datatype Endpoint = Endpoint(host: Bytes, port: u16)

  // ---- printing -------------------------------------------------------------

  /** std::to_string of an unsigned number. */
  function Decimal(n: nat): (s: Bytes)
    ensures s != []
  {
    if n < 10 then [ZERO + n] else Decimal(n / 10) + [ZERO + n % 10]
  }

  function ToText(e: Endpoint): (s: Bytes)
    ensures s != []
  {
    e.host + [COLON] + Decimal(e.port)
  }

  // ---- parsing --------------------------------------------------------------

  function RFind(s: Bytes, c: byte): (r: Option<nat>)
    ensures r.None? ==> c !in s
    ensures r.Some? ==> r.value < |s| && s[r.value] == c && c !in s[r.value + 1..]
  {
    if s == [] then None
    else if s[|s| - 1] == c then Some(|s| - 1)
    else RFind(s[..|s| - 1], c)
  }

  predicate IsSpace(c: byte) { c == 32 || 9 <= c <= 13 }
  predicate IsDigit(c: byte) { ZERO <= c <= ZERO + 9 }

  function SkipSpace(s: Bytes): Bytes
  {
    if s != [] && IsSpace(s[0]) then SkipSpace(s[1..]) else s
  }

  /** The value of the longest run of digits at the front of s, after acc. */
  function LeadingNumber(s: Bytes, acc: nat): nat
  {
    if s != [] && IsDigit(s[0]) then LeadingNumber(s[1..], acc * 10 + (s[0] - ZERO)) else acc
  }

  /** strtoul(s, nullptr, 10) with a 64-bit unsigned long: leading space, an
      optional sign, digits up to the first other byte, saturation, and a minus
      sign that negates modulo 2^64. */
  function Strtoul(s: Bytes): nat
  {
    var t := SkipSpace(s);
    var signed := t != [] && (t[0] == 43 || t[0] == 45);
    var v := LeadingNumber(if signed then t[1..] else t, 0);
    if v > ULONG_MAX then ULONG_MAX
    else if signed && t[0] == 45 then (TWO64 - v) % TWO64
    else v
  }

  /** Split at the last colon; the port is cast to 16 bits. */
  function ParseEndpoint(payload: Bytes): Option<Endpoint>
  {
    match RFind(payload, COLON)
    case None => None
    case Some(pos) =>
      if pos + 1 >= |payload| then None
      else Some(Endpoint(payload[..pos], Strtoul(payload[pos + 1..]) % 0x1_0000))
  }

  /** What parses: a text with a colon that is not its last byte; the host is all before
      the last colon and the port what strtoul makes of the rest, cut to 16 bits. */
  lemma ParsesIff(payload: Bytes)
    ensures ParseEndpoint(payload).Some? <==> COLON in payload && payload[|payload| - 1] != COLON
    ensures ParseEndpoint(payload).Some? ==> |ParseEndpoint(payload).value.host| < |payload|
    ensures ParseEndpoint(payload).Some? ==>
              var e := ParseEndpoint(payload).value;
              var tail := payload[|e.host| + 1..];
              payload == e.host + [COLON] + tail && COLON !in tail && e.port == Strtoul(tail) % 0x1_0000
  {
    var pos := RFind(payload, COLON);
    if pos.Some? {
      var tail := payload[pos.value + 1..];
      if tail != [] { assert payload[|payload| - 1] == tail[|tail| - 1] && tail[|tail| - 1] in tail; }
      assert payload == payload[..pos.value] + [COLON] + tail;
    }
  }

  // ---- round trip -----------------------------------------------------------

  predicate AllDigits(s: Bytes) { forall i :: 0 <= i < |s| ==> IsDigit(s[i]) }

  lemma {:induction false} DecimalIsDigits(n: nat)
    ensures AllDigits(Decimal(n))
  {
    if n >= 10 { DecimalIsDigits(n / 10); }
  }

  lemma {:induction false} LeadingNumberSnoc(s: Bytes, d: byte, acc: nat)
    requires AllDigits(s) && IsDigit(d)
    ensures LeadingNumber(s + [d], acc) == LeadingNumber(s, acc) * 10 + (d - ZERO)
  {
    if s == [] {
      assert (s + [d])[1..] == [];
    } else {
      assert (s + [d])[1..] == s[1..] + [d];
      LeadingNumberSnoc(s[1..], d, acc * 10 + (s[0] - ZERO));
    }
  }

  lemma {:induction false} DigitsReadBack(n: nat)
    ensures LeadingNumber(Decimal(n), 0) == n
  {
    if n < 10 {
      assert Decimal(n)[1..] == [];
    } else {
      DigitsReadBack(n / 10);
      DecimalIsDigits(n / 10);
      LeadingNumberSnoc(Decimal(n / 10), ZERO + n % 10, 0);
    }
  }

  /** strtoul reads back what to_string prints, up to where it saturates. */
  lemma DecimalReadsBack(n: nat)
    ensures Strtoul(Decimal(n)) == if n > ULONG_MAX then ULONG_MAX else n
  {
    DecimalIsDigits(n);
    DigitsReadBack(n);
    assert IsDigit(Decimal(n)[0]);
  }

  /** And the rest of strtoul: a plus sign does not matter, a minus sign negates modulo
      2^64, and anything after the digits is ignored. */
  lemma StrtoulSigns(n: nat, junk: Bytes)
    requires n <= ULONG_MAX && (junk != [] ==> !IsDigit(junk[0]))
    ensures Strtoul(Decimal(n) + junk) == n && Strtoul([43] + (Decimal(n) + junk)) == n
    ensures Strtoul([45] + (Decimal(n) + junk)) == if n == 0 then 0 else TWO64 - n
  {
    hide Decimal;
    hide LeadingNumber;
    var s := Decimal(n) + junk;
    DecimalIsDigits(n);
    DigitsReadBack(n);
    LeadingNumberStops(Decimal(n), junk, 0);
    assert IsDigit(s[0]);
    assert ([43] + s)[1..] == s && ([45] + s)[1..] == s;
  }

  lemma StrtoulSkipsSpace(c: byte, s: Bytes)
    requires IsSpace(c)
    ensures Strtoul([c] + s) == Strtoul(s)
  {
    assert ([c] + s)[1..] == s;
  }

  lemma {:induction false} LeadingNumberStops(s: Bytes, junk: Bytes, acc: nat)
    requires AllDigits(s) && (junk != [] ==> !IsDigit(junk[0]))
    ensures LeadingNumber(s + junk, acc) == LeadingNumber(s, acc)
  {
    if s == [] {
      assert s + junk == junk;
    } else {
      assert (s + junk)[1..] == s[1..] + junk;
      LeadingNumberStops(s[1..], junk, acc * 10 + (s[0] - ZERO));
    }
  }

  lemma {:induction false} LastColon(host: Bytes, tail: Bytes)
    requires AllDigits(tail)
    ensures RFind(host + [COLON] + tail, COLON) == Some(|host|)
  {
    var s := host + [COLON] + tail;
    if tail != [] {
      var front := tail[..|tail| - 1];
      assert s[..|s| - 1] == host + [COLON] + front;
      LastColon(host, front);
    }
  }

  /** Every endpoint prints and parses back, whatever its host contains. */
  lemma EndpointRoundTrip(e: Endpoint)
    ensures ParseEndpoint(ToText(e)) == Some(e)
  {
    var s, digits := ToText(e), Decimal(e.port);
    DecimalIsDigits(e.port);
    DecimalReadsBack(e.port);
    LastColon(e.host, digits);
    assert s[..|e.host|] == e.host;
    assert s[|e.host| + 1..] == digits;
  }
}
