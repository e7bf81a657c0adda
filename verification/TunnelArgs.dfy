/** The tunnel argument: comma-separated entries, each a pair of ports, a pair of port ranges, or the
    four parts of an ssh-style entry. */
module TunnelArgs {
  import opened Bytes

  datatype ParseError =
    | MissingDestination
    | RangeLengthMismatch
    | HalfRange
    | Invalid(input: string, reason: string)
    | PortOutOfRange(port: int)
    | UnsupportedSocket(path: string)

  datatype Result<+T> = Ok(value: T) | Err(error: ParseError)

  datatype Tunnel = Tunnel(source: Option<string>, sourcePort: int, destination: Option<string>, destinationPort: int)

  const TOO_FEW_PARTS := "the 4 part ssh-style tunneling arg (bind_address:port:host:hostport) must be supplied"
  const TOO_MANY_PARTS := "ipv6 addresses must be inside of square brackets, ie [::1]:8080:[::]:9090"
  const MAX_I64: int := 0x7fff_ffff_ffff_ffff

  // ---- strings ----

  /** Text put in front of the first of some parts. */
  function Glued(s: string, parts: seq<string>): (r: seq<string>)
    requires |parts| > 0
    ensures |r| == |parts|
  {
    [s + parts[0]] + parts[1..]
  }

  lemma GluedTwice(s: string, t: string, parts: seq<string>)
    requires |parts| > 0
    ensures Glued(s, Glued(t, parts)) == Glued(s + t, parts)
  {
    assert s + (t + parts[0]) == (s + t) + parts[0];
  }

  lemma GluedOnto(s: string, x: seq<string>, y: seq<string>)
    requires |x| > 0
    ensures Glued(s, x + y) == Glued(s, x) + y
  {
    assert (x + y)[1..] == x[1..] + y;
  }

  lemma GluedNothing(parts: seq<string>)
    requires |parts| > 0
    ensures Glued([], parts) == parts
  {
    assert [] + parts[0] == parts[0] && [parts[0]] + parts[1..] == parts;
  }

  /** The pieces between separators; there is always at least one. */
  function Split(s: string, sep: char): (parts: seq<string>)
    ensures |parts| > 0
  {
    if s == [] then [[]]
    else
      var rest := Split(s[1..], sep);
      if s[0] == sep then [[]] + rest else Glued([s[0]], rest)
  }

  /** Unicode white space, as `trim` sees it. */
  predicate IsSpace(c: char) {
    var v := c as int;
    || 9 <= v <= 13 || v == 32 || v == 0x85 || v == 0xA0 || v == 0x1680 || 0x2000 <= v <= 0x200A
    || v == 0x2028 || v == 0x2029 || v == 0x202F || v == 0x205F || v == 0x3000
  }

  function Trim(s: string): string {
    if s == [] then []
    else if IsSpace(s[0]) then Trim(s[1..])
    else if IsSpace(s[|s| - 1]) then Trim(s[..|s| - 1])
    else s
  }

  predicate IsDigit(c: char) {
    '0' <= c <= '9'
  }

  predicate AllDigits(s: string) {
    forall i :: 0 <= i < |s| ==> IsDigit(s[i])
  }

  function Number(digits: string): nat
    requires AllDigits(digits)
  {
    if digits == [] then 0
    else 10 * Number(digits[..|digits| - 1]) + (digits[|digits| - 1] as int - '0' as int)
  }

  /** A decimal `i64`: an optional sign and at least one digit. */
  function ParseI64(s: string): Option<int> {
    if s == [] then None
    else
      var digits := if s[0] == '+' || s[0] == '-' then s[1..] else s;
      if digits == [] || !AllDigits(digits) then None
      else
        var n: int := Number(digits);
        var v := if s[0] == '-' then -n else n;
        if -MAX_I64 - 1 <= v <= MAX_I64 then Some(v) else None
  }

  // ---- the parser ----

  function ParsePort(v: string, input: string): (r: Result<int>)
    ensures r.Ok? ==> 0 <= r.value <= 65535
  {
    match ParseI64(v)
    case None => Err(Invalid(input, "bad port"))
    case Some(port) => if 0 <= port <= 65535 then Ok(port) else Err(PortOutOfRange(port))
  }

  predicate IsSocketPath(s: string) {
    s != [] && s[0] == '/'
  }

  predicate NumericOrRange(s: string) {
    s != [] && forall i :: 0 <= i < |s| ==> IsDigit(s[i]) || s[i] == '-'
  }

  function Pair(source: int, destination: int): Tunnel {
    Tunnel(Some("localhost"), source, None, destination)
  }

  /** Tunnels from consecutive ports to consecutive ports. */
  function Pairs(source: int, destination: int, n: nat): (r: seq<Tunnel>)
    ensures |r| == n && forall i :: 0 <= i < n ==> r[i] == Pair(source + i, destination + i)
  {
    seq(n, i => Pair(source + i, destination + i))
  }

  function ParseRange(src: string, dst: string, input: string): Result<seq<Tunnel>> {
    var (s, d) := (Split(src, '-'), Split(dst, '-'));
    if |s| != 2 || |d| != 2 then Err(Invalid(input, "bad range"))
    else
      var s0, s1 := ParsePort(s[0], input), ParsePort(s[1], input);
      var d0, d1 := ParsePort(d[0], input), ParsePort(d[1], input);
      if s0.Err? then Err(s0.error)
      else if s1.Err? then Err(s1.error)
      else if d0.Err? then Err(d0.error)
      else if d1.Err? then Err(d1.error)
      else if s1.value < s0.value || d1.value < d0.value then
        Err(Invalid(input, "port ranges must be ascending (start-end)"))
      else if s1.value - s0.value != d1.value - d0.value then Err(RangeLengthMismatch)
      else Ok(Pairs(s0.value, d0.value, s1.value - s0.value + 1))
  }

  function ParsePair(src: string, dst: string, input: string): Result<seq<Tunnel>> {
    var s, d := ParsePort(src, input), ParsePort(dst, input);
    if s.Err? then Err(s.error) else if d.Err? then Err(d.error) else Ok([Pair(s.value, d.value)])
  }

  function ParseEtStyle(parts: seq<string>, input: string): Result<seq<Tunnel>> {
    if |parts| < 2 then Err(MissingDestination)
    else
      var src, dst := parts[0], parts[1];
      if IsSocketPath(src) then Err(UnsupportedSocket(src))
      else if IsSocketPath(dst) && NumericOrRange(src) then Err(UnsupportedSocket(dst))
      else if !NumericOrRange(src) && !NumericOrRange(dst) && src != [] then
        Err(UnsupportedSocket(src + ":" + dst))
      else if '-' in src && '-' in dst then ParseRange(src, dst, input)
      else if '-' in src || '-' in dst then Err(HalfRange)
      else ParsePair(src, dst, input)
  }

  /** The parts of an ssh-style entry: colons separate them except inside square brackets, and the
      brackets themselves disappear. */
  function SshParts(s: string, inBrackets: bool): (parts: seq<string>)
    ensures |parts| > 0
  {
    if s == [] then [[]]
    else if s[0] == '[' then SshParts(s[1..], true)
    else if s[0] == ']' then SshParts(s[1..], false)
    else
      var rest := SshParts(s[1..], inBrackets);
      if s[0] == ':' && !inBrackets then [[]] + rest else Glued([s[0]], rest)
  }

  function ParseSsh(element: string): (r: Result<seq<string>>)
    ensures r.Ok? ==> |r.value| == 4
  {
    var parts := SshParts(element, false);
    if |parts| < 4 then Err(Invalid(element, TOO_FEW_PARTS))
    else if |parts| > 4 then Err(Invalid(element, TOO_MANY_PARTS))
    else Ok(parts)
  }

  function ParseSshStyle(element: string, input: string): Result<seq<Tunnel>> {
    var ssh := ParseSsh(element);
    if ssh.Err? then Err(ssh.error)
    else
      var s, d := ParsePort(ssh.value[1], input), ParsePort(ssh.value[3], input);
      if s.Err? then Err(s.error) else if d.Err? then Err(d.error)
      else Ok([Tunnel(Some(ssh.value[0]), s.value, Some(ssh.value[2]), d.value)])
  }

  function ParseElement(element: string, input: string): Result<seq<Tunnel>> {
    var parts := Split(element, ':');
    if |parts| <= 2 then ParseEtStyle(parts, input) else ParseSshStyle(element, input)
  }

  /** One entry between commas; an empty one is skipped. */
  function ParseEntry(piece: string, input: string): Result<seq<Tunnel>> {
    var element := Trim(piece);
    if element == [] then Ok([]) else ParseElement(element, input)
  }

  function ParseAll(pieces: seq<string>, input: string): Result<seq<Tunnel>> {
    if pieces == [] then Ok([])
    else
      var first := ParseEntry(pieces[0], input);
      if first.Err? then first
      else
        var rest := ParseAll(pieces[1..], input);
        if rest.Err? then rest else Ok(first.value + rest.value)
  }

  function Parse(input: string): Result<seq<Tunnel>> {
    ParseAll(Split(input, ','), input)
  }

  // ---- as the code does it ----

  /** A result for the next entry joins what the loop has collected. */
  function Joined(out: seq<Tunnel>, next: Result<seq<Tunnel>>): Result<seq<Tunnel>> {
    if next.Err? then next else Ok(out + next.value)
  }

  method ProcessRange(out: seq<Tunnel>, src: string, dst: string, input: string) returns (r: Result<seq<Tunnel>>)
    ensures r == Joined(out, ParseRange(src, dst, input))
  {
    hide ParsePort, Split;
    var (s, d) := (Split(src, '-'), Split(dst, '-'));
    if |s| != 2 || |d| != 2 {
      return Err(Invalid(input, "bad range"));
    }
    var s0 := ParsePort(s[0], input);
    if s0.Err? { return Err(s0.error); }
    var s1 := ParsePort(s[1], input);
    if s1.Err? { return Err(s1.error); }
    var d0 := ParsePort(d[0], input);
    if d0.Err? { return Err(d0.error); }
    var d1 := ParsePort(d[1], input);
    if d1.Err? { return Err(d1.error); }
    var source, destination := s0.value, d0.value;
    if s1.value < source || d1.value < destination {
      return Err(Invalid(input, "port ranges must be ascending (start-end)"));
    }
    if s1.value - source != d1.value - destination {
      return Err(RangeLengthMismatch);
    }
    var grown := out;
    for i := 0 to s1.value - source + 1
      invariant grown == out + Pairs(source, destination, i)
    {
      assert Pairs(source, destination, i + 1) == Pairs(source, destination, i) + [Pair(source + i, destination + i)];
      grown := grown + [Pair(source + i, destination + i)];
    }
    r := Ok(grown);
  }

  method ProcessEtStyle(out: seq<Tunnel>, parts: seq<string>, input: string) returns (r: Result<seq<Tunnel>>)
    ensures r == Joined(out, ParseEtStyle(parts, input))
  {
    hide ParsePort, ParseRange, NumericOrRange, IsSocketPath;
    if |parts| < 2 {
      return Err(MissingDestination);
    }
    var src, dst := parts[0], parts[1];
    var srcIsSocket, srcIsNumeric := IsSocketPath(src), NumericOrRange(src);
    if srcIsSocket || (IsSocketPath(dst) && srcIsNumeric) {
      return Err(UnsupportedSocket(if srcIsSocket then src else dst));
    }
    if !srcIsNumeric && !NumericOrRange(dst) && src != [] {
      return Err(UnsupportedSocket(src + ":" + dst));
    }
    if '-' in src && '-' in dst {
      r := ProcessRange(out, src, dst, input);
      return;
    }
    if '-' in src || '-' in dst {
      return Err(HalfRange);
    }
    var s := ParsePort(src, input);
    if s.Err? { return Err(s.error); }
    var d := ParsePort(dst, input);
    if d.Err? { return Err(d.error); }
    r := Ok(out + [Pair(s.value, d.value)]);
  }

  /** What is scanned so far, continued by the parts of what is left. */
  function Continued(parts: seq<string>, current: string, rest: seq<string>): seq<string>
    requires |rest| > 0
  {
    parts + Glued(current, rest)
  }

  lemma ContinuedColon(parts: seq<string>, current: string, rest: seq<string>)
    requires |rest| > 0
    ensures Continued(parts, current, [[]] + rest) == Continued(parts + [current], [], rest)
  {
    GluedNothing(rest);
    assert current + [] == current && ([[]] + rest)[1..] == rest;
    assert parts + ([current] + rest) == (parts + [current]) + rest;
  }

  method ParseSshTunnelArg(element: string) returns (r: Result<seq<string>>)
    ensures r == ParseSsh(element)
  {
    var parts: seq<string>, current: string, inBrackets := [], [], false;
    GluedNothing(SshParts(element, false));
    assert element[0..] == element;
    for i := 0 to |element|
      invariant Continued(parts, current, SshParts(element[i..], inBrackets)) == SshParts(element, false)
    {
      var c := element[i];
      ghost var rest := element[i + 1..];
      assert element[i..][1..] == rest && element[i..][0] == c;
      if c == '[' {
        inBrackets := true;
      } else if c == ']' {
        inBrackets := false;
      } else if c == ':' && !inBrackets {
        ContinuedColon(parts, current, SshParts(rest, false));
        parts, current := parts + [current], [];
      } else {
        GluedTwice(current, [c], SshParts(rest, inBrackets));
        current := current + [c];
      }
    }
    assert element[|element|..] == [];
    assert current + [] == current;
    assert Continued(parts, current, [[]]) == parts + [current];
    parts := parts + [current];
    if |parts| < 4 {
      return Err(Invalid(element, TOO_FEW_PARTS));
    }
    if |parts| > 4 {
      return Err(Invalid(element, TOO_MANY_PARTS));
    }
    r := Ok(parts);
  }

  lemma JoinedNothing(r: Result<seq<Tunnel>>)
    ensures Joined([], r) == r
  {
    if r.Ok? {
      assert [] + r.value == r.value;
    }
  }

  lemma JoinedStep(out: seq<Tunnel>, pieces: seq<string>, input: string)
    requires pieces != []
    ensures var first := ParseEntry(pieces[0], input);
            Joined(out, ParseAll(pieces, input)) ==
            if first.Err? then first else Joined(out + first.value, ParseAll(pieces[1..], input))
  {
    hide ParseEntry;
    var first, rest := ParseEntry(pieces[0], input), ParseAll(pieces[1..], input);
    if first.Ok? && rest.Ok? {
      assert out + (first.value + rest.value) == (out + first.value) + rest.value;
    }
  }

  method ProcessElement(out: seq<Tunnel>, element: string, input: string) returns (r: Result<seq<Tunnel>>)
    ensures r == Joined(out, ParseElement(element, input))
  {
    hide ParsePort, ParseSsh, ParseEtStyle, Split;
    var parts := Split(element, ':');
    if |parts| <= 2 {
      r := ProcessEtStyle(out, parts, input);
    } else {
      var ssh := ParseSshTunnelArg(element);
      if ssh.Err? { return Err(ssh.error); }
      var s := ParsePort(ssh.value[1], input);
      if s.Err? { return Err(s.error); }
      var d := ParsePort(ssh.value[3], input);
      if d.Err? { return Err(d.error); }
      r := Ok(out + [Tunnel(Some(ssh.value[0]), s.value, Some(ssh.value[2]), d.value)]);
    }
  }

  method ParseRanges(input: string) returns (r: Result<seq<Tunnel>>)
    ensures r == Parse(input)
  {
    hide ParseElement, Trim, Split;
    var pieces, out: seq<Tunnel> := Split(input, ','), [];
    assert pieces[0..] == pieces;
    JoinedNothing(Parse(input));
    for i := 0 to |pieces|
      invariant Parse(input) == Joined(out, ParseAll(pieces[i..], input))
    {
      JoinedStep(out, pieces[i..], input);
      assert pieces[i..][1..] == pieces[i + 1..] && pieces[i..][0] == pieces[i];
      var element := Trim(pieces[i]);
      if element != [] {
        var grown := ProcessElement(out, element, input);
        if grown.Err? { return grown; }
        out := grown.value;
      } else {
        assert out + [] == out;
      }
    }
    assert pieces[|pieces|..] == [];
    r := Ok(out);
    assert out + [] == out;
  }

  // ---- joining by commas ----

  lemma {:induction false} SplitJoin(a: string, b: string, sep: char)
    ensures Split(a + [sep] + b, sep) == Split(a, sep) + Split(b, sep)
  {
    hide Glued;
    var s := a + [sep] + b;
    if a == [] {
      assert s[0] == sep && s[1..] == b;
    } else {
      SplitJoin(a[1..], b, sep);
      assert s[0] == a[0] && s[1..] == a[1..] + [sep] + b;
      var x, y := Split(a[1..], sep), Split(b, sep);
      GluedOnto([a[0]], x, y);
      assert [[]] + (x + y) == ([[]] + x) + y;
    }
  }

  lemma {:induction false} SplitPlain(s: string, sep: char)
    requires sep !in s
    ensures Split(s, sep) == [s]
  {
    if s != [] {
      SplitPlain(s[1..], sep);
      assert s[0] != sep && [s[0]] + s[1..] == s;
    }
  }

  /** Only error messages depend on the whole input. */
  lemma SameEntry(piece: string, x: string, y: string)
    requires ParseEntry(piece, x).Ok?
    ensures ParseEntry(piece, y) == ParseEntry(piece, x)
  {
    hide Split, Trim, NumericOrRange, IsSocketPath, SshParts, ParseI64;
  }

  lemma {:induction false} SameAll(pieces: seq<string>, x: string, y: string)
    requires ParseAll(pieces, x).Ok?
    ensures ParseAll(pieces, y) == ParseAll(pieces, x)
  {
    hide ParseEntry;
    if pieces != [] {
      SameEntry(pieces[0], x, y);
      SameAll(pieces[1..], x, y);
    }
  }

  lemma {:induction false} ParseAllConcat(xs: seq<string>, ys: seq<string>, input: string)
    ensures var x, y, both := ParseAll(xs, input), ParseAll(ys, input), ParseAll(xs + ys, input);
            && (both.Ok? <==> x.Ok? && y.Ok?)
            && (both.Ok? ==> both.value == x.value + y.value)
  {
    hide ParseEntry;
    var y := ParseAll(ys, input);
    if xs == [] {
      assert xs + ys == ys;
      assert y.Ok? ==> [] + y.value == y.value;
    } else {
      ParseAllConcat(xs[1..], ys, input);
      assert (xs + ys)[0] == xs[0] && (xs + ys)[1..] == xs[1..] + ys;
      var first, rest := ParseEntry(xs[0], input), ParseAll(xs[1..], input);
      if first.Ok? && rest.Ok? && y.Ok? {
        assert first.value + (rest.value + y.value) == (first.value + rest.value) + y.value;
      }
    }
  }

  /** A comma join is accepted exactly when both sides are, and its tunnels are theirs in order. */
  lemma CommaJoin(a: string, b: string)
    ensures var x, y, both := Parse(a), Parse(b), Parse(a + "," + b);
            && (both.Ok? <==> x.Ok? && y.Ok?)
            && (both.Ok? ==> both.value == x.value + y.value)
  {
    var s := a + "," + b;
    SplitJoin(a, b, ',');
    ParseAllConcat(Split(a, ','), Split(b, ','), s);
    hide ParseAll, Split;
    if ParseAll(Split(a, ','), s).Ok? { SameAll(Split(a, ','), s, a); }
    if ParseAll(Split(b, ','), s).Ok? { SameAll(Split(b, ','), s, b); }
    if Parse(a).Ok? { SameAll(Split(a, ','), a, s); }
    if Parse(b).Ok? { SameAll(Split(b, ','), b, s); }
  }

  // ---- ranges ----

  /** The decimal form of a number. */
  function Decimal(n: nat): (s: string)
    ensures s != [] && AllDigits(s)
  {
    var digit := [('0' as int + n % 10) as char];
    if n < 10 then digit else Decimal(n / 10) + digit
  }

  lemma {:induction false} DecimalReads(n: nat)
    ensures Number(Decimal(n)) == n
  {
    var digit := [('0' as int + n % 10) as char];
    if n < 10 {
      assert Decimal(n) == digit && digit[..0] == [];
    } else {
      DecimalReads(n / 10);
      assert Decimal(n)[..|Decimal(n)| - 1] == Decimal(n / 10);
    }
  }

  lemma PortReads(n: nat, input: string)
    ensures ParsePort(Decimal(n), input).Ok? <==> n <= 65535
    ensures n <= 65535 ==> ParsePort(Decimal(n), input) == Ok(n)
  {
    DecimalReads(n);
    assert IsDigit(Decimal(n)[0]);
  }

  lemma PlainDigits(s: string)
    requires s != [] && AllDigits(s)
    ensures '-' !in s && ':' !in s && ',' !in s && NumericOrRange(s) && !IsSocketPath(s)
    ensures !IsSpace(s[0]) && !IsSpace(s[|s| - 1])
  {
    assert IsDigit(s[0]) && IsDigit(s[|s| - 1]);
    forall c | c in s ensures IsDigit(c) {
    }
  }

  function PairText(source: nat, destination: nat): string {
    Decimal(source) + ":" + Decimal(destination)
  }

  /** A pair of ports is read back. */
  lemma PairReads(source: nat, destination: nat)
    requires source <= 65535 && destination <= 65535
    ensures Parse(PairText(source, destination)) == Ok([Pair(source, destination)])
  {
    var s, d, text := Decimal(source), Decimal(destination), PairText(source, destination);
    PlainDigits(s);
    PlainDigits(d);
    SplitPlain(text, ',');
    assert text[0] == s[0] && text[|text| - 1] == d[|d| - 1];
    assert Trim(text) == text;
    SplitPlain(s, ':');
    SplitPlain(d, ':');
    SplitJoin(s, d, ':');
    PortReads(source, text);
    PortReads(destination, text);
    assert ParseAll([], text) == Ok([]);
    assert [Pair(source, destination)] + [] == [Pair(source, destination)];
    hide Split, Trim, ParsePort, NumericOrRange, IsSocketPath, Decimal, AllDigits, PairText;
    assert ParseEntry(text, text) == Ok([Pair(source, destination)]);
    assert [text][1..] == [];
  }

  /** The pairs of a range, written out and joined by commas. */
  function RangeText(source: nat, destination: nat, n: nat): string
    requires n > 0
    decreases n
  {
    if n == 1 then PairText(source, destination)
    else PairText(source, destination) + "," + RangeText(source + 1, destination + 1, n - 1)
  }

  lemma {:induction false} RangeReads(source: nat, destination: nat, n: nat)
    requires n > 0 && source + n <= 65536 && destination + n <= 65536
    ensures Parse(RangeText(source, destination, n)) == Ok(Pairs(source, destination, n))
    decreases n
  {
    hide Parse, PairText;
    PairReads(source, destination);
    if n == 1 {
      assert Pairs(source, destination, 1) == [Pair(source, destination)];
    } else {
      RangeReads(source + 1, destination + 1, n - 1);
      CommaJoin(PairText(source, destination), RangeText(source + 1, destination + 1, n - 1));
      assert Pairs(source, destination, n) == [Pair(source, destination)] + Pairs(source + 1, destination + 1, n - 1);
    }
  }

  lemma RangeBounds(src: string, dst: string, input: string) returns (source: nat, destination: nat, n: nat)
    requires ParseRange(src, dst, input).Ok?
    ensures n > 0 && source + n <= 65536 && destination + n <= 65536
    ensures ParseRange(src, dst, input) == Ok(Pairs(source, destination, n))
  {
    var (s, d) := (Split(src, '-'), Split(dst, '-'));
    var s0, s1 := ParsePort(s[0], input), ParsePort(s[1], input);
    var d0, d1 := ParsePort(d[0], input), ParsePort(d[1], input);
    source, destination, n := s0.value, d0.value, s1.value - s0.value + 1;
    hide Split, ParsePort, Pairs;
  }

  /** An accepted range means the same as its pairs written out, and all its ports are ports. */
  lemma RangeIsItsPairs(src: string, dst: string, input: string)
    returns (source: nat, destination: nat, n: nat)
    requires ParseRange(src, dst, input).Ok?
    ensures n > 0 && source + n <= 65536 && destination + n <= 65536
    ensures ParseRange(src, dst, input) == Ok(Pairs(source, destination, n))
    ensures Parse(RangeText(source, destination, n)) == ParseRange(src, dst, input)
  {
    source, destination, n := RangeBounds(src, dst, input);
    hide *;
    RangeReads(source, destination, n);
  }

  /** An entry without commas or space at its ends is parsed by itself. */
  lemma OneEntry(text: string)
    requires text != [] && ',' !in text && !IsSpace(text[0]) && !IsSpace(text[|text| - 1])
    ensures Parse(text) == ParseElement(text, text)
  {
    SplitPlain(text, ',');
    assert Trim(text) == text;
    hide Split, Trim, ParseElement;
    assert [text][1..] == [] && ParseAll([], text) == Ok([]);
    assert ParseEntry(text, text).Ok? ==> ParseEntry(text, text).value + [] == ParseEntry(text, text).value;
  }

  function Ports(first: nat, last: nat): string {
    Decimal(first) + "-" + Decimal(last)
  }

  lemma PortsText(first: nat, last: nat)
    ensures var s := Ports(first, last);
            && s != [] && ':' !in s && ',' !in s && '-' in s && NumericOrRange(s) && !IsSocketPath(s)
            && !IsSpace(s[0]) && !IsSpace(s[|s| - 1])
            && Split(s, '-') == [Decimal(first), Decimal(last)]
  {
    var s, a, b := Ports(first, last), Decimal(first), Decimal(last);
    PlainDigits(a);
    PlainDigits(b);
    SplitPlain(a, '-');
    SplitPlain(b, '-');
    SplitJoin(a, b, '-');
    assert s[0] == a[0] && s[|s| - 1] == b[|b| - 1] && s[|a|] == '-';
    hide Decimal, Split, AllDigits, IsSpace;
  }

  lemma RangeElement(a: nat, b: nat, c: nat, d: nat)
    ensures var text := Ports(a, b) + ":" + Ports(c, d);
            Parse(text) == ParseRange(Ports(a, b), Ports(c, d), text)
  {
    var src, dst := Ports(a, b), Ports(c, d);
    var text := src + ":" + dst;
    PortsText(a, b);
    PortsText(c, d);
    assert text[0] == src[0] && text[|text| - 1] == dst[|dst| - 1];
    hide Split, Parse, ParseRange, NumericOrRange, IsSocketPath, IsSpace, Decimal, Ports;
    OneEntry(text);
    SplitPlain(src, ':');
    SplitPlain(dst, ':');
    SplitJoin(src, dst, ':');
  }

  /** A pair of ranges in decimal is accepted exactly when both ascend, have the same length and
      stay within the ports; then it means its pairs written out. */
  lemma RangeEntry(a: nat, b: nat, c: nat, d: nat)
    ensures var text := Ports(a, b) + ":" + Ports(c, d);
            && (Parse(text).Ok? <==> a <= b <= 65535 && c <= d <= 65535 && b - a == d - c)
            && (Parse(text).Ok? ==> Parse(text) == Parse(RangeText(a, c, b - a + 1)))
  {
    var text := Ports(a, b) + ":" + Ports(c, d);
    RangeElement(a, b, c, d);
    PortsText(a, b);
    PortsText(c, d);
    hide Split, Parse, ParsePort, NumericOrRange, IsSocketPath, IsSpace, Decimal, Ports, Pairs, RangeText;
    PortReads(a, text);
    PortReads(b, text);
    PortReads(c, text);
    PortReads(d, text);
    if a <= b <= 65535 && c <= d <= 65535 && b - a == d - c {
      RangeReads(a, c, b - a + 1);
    }
  }

  /** Whatever is accepted, every port is in range. */
  lemma {:induction false} PortsInRange(pieces: seq<string>, input: string)
    requires ParseAll(pieces, input).Ok?
    ensures forall t :: t in ParseAll(pieces, input).value ==>
              0 <= t.sourcePort <= 65535 && 0 <= t.destinationPort <= 65535
  {
    if pieces != [] {
      EntryPortsInRange(pieces[0], input);
      PortsInRange(pieces[1..], input);
    }
    hide ParseEntry;
  }

  lemma EntryPortsInRange(piece: string, input: string)
    requires ParseEntry(piece, input).Ok?
    ensures forall t :: t in ParseEntry(piece, input).value ==>
              0 <= t.sourcePort <= 65535 && 0 <= t.destinationPort <= 65535
  {
    var element := Trim(piece);
    var parts := Split(element, ':');
    hide Split, Trim, NumericOrRange, IsSocketPath, SshParts, ParseI64, Pairs;
    if element != [] && |parts| == 2 && ParseRange(parts[0], parts[1], input).Ok? {
      RangePortsInRange(parts[0], parts[1], input);
    }
    hide ParseRange, ParsePort;
  }

  lemma RangePortsInRange(src: string, dst: string, input: string)
    requires ParseRange(src, dst, input).Ok?
    ensures forall t :: t in ParseRange(src, dst, input).value ==>
              0 <= t.sourcePort <= 65535 && 0 <= t.destinationPort <= 65535
  {
    var source, destination, n := RangeBounds(src, dst, input);
    hide ParseRange;
    forall t | t in Pairs(source, destination, n)
      ensures 0 <= t.sourcePort <= 65535 && 0 <= t.destinationPort <= 65535
    {
      var i :| 0 <= i < n && t == Pairs(source, destination, n)[i];
    }
  }

  // ---- ssh-style entries ----

  predicate Bracketed(s: string) {
    ':' in s
  }

  /** A part as it is written: in square brackets when it contains a colon. */
  function PartText(part: string): string {
    if Bracketed(part) then "[" + part + "]" else part
  }

  function SshText(parts: seq<string>): string
    requires |parts| > 0
  {
    if |parts| == 1 then PartText(parts[0]) else PartText(parts[0]) + ":" + SshText(parts[1..])
  }

  predicate NoBrackets(s: string) {
    '[' !in s && ']' !in s
  }

  /** Characters that are neither brackets nor separating colons are taken as they are. */
  lemma {:induction false} SshPrefix(s: string, rest: string, inBrackets: bool)
    requires NoBrackets(s) && (inBrackets || ':' !in s)
    ensures SshParts(s + rest, inBrackets) == Glued(s, SshParts(rest, inBrackets))
  {
    hide Glued;
    var tail := SshParts(rest, inBrackets);
    if s == [] {
      GluedNothing(tail);
      assert s + rest == rest;
    } else {
      SshPrefix(s[1..], rest, inBrackets);
      GluedTwice([s[0]], s[1..], tail);
      assert (s + rest)[0] == s[0] && (s + rest)[1..] == s[1..] + rest;
      assert [s[0]] + s[1..] == s;
    }
  }

  /** A written part is read as itself, in front of whatever follows. */
  lemma PartReads(part: string, rest: string)
    requires NoBrackets(part)
    ensures SshParts(PartText(part) + rest, false) == Glued(part, SshParts(rest, false))
  {
    if Bracketed(part) {
      SshBracket("]" + rest);
      SshBracket("[" + (part + ("]" + rest)));
      SshPrefix(part, "]" + rest, true);
      hide Glued, SshParts;
      assert ("]" + rest)[1..] == rest;
      assert PartText(part) + rest == "[" + (part + ("]" + rest));
      assert ("[" + (part + ("]" + rest)))[1..] == part + ("]" + rest);
    } else {
      SshPrefix(part, rest, false);
    }
  }

  /** Brackets only switch the meaning of colons. */
  lemma SshBracket(s: string)
    requires s != []
    ensures s[0] == '[' ==> SshParts(s, false) == SshParts(s[1..], true)
    ensures s[0] == ']' ==> SshParts(s, true) == SshParts(s[1..], false)
  {
  }

  lemma {:induction false} SshReads(parts: seq<string>)
    requires |parts| > 0 && forall p :: p in parts ==> NoBrackets(p)
    ensures SshParts(SshText(parts), false) == parts
  {
    if |parts| == 1 {
      PartReads(parts[0], []);
      assert PartText(parts[0]) + [] == PartText(parts[0]);
      assert parts[0] + [] == parts[0];
    } else {
      var rest := ":" + SshText(parts[1..]);
      SshReads(parts[1..]);
      PartReads(parts[0], rest);
      assert SshText(parts) == PartText(parts[0]) + rest;
      assert SshParts(rest, false) == [[]] + parts[1..] by {
        assert rest[0] == ':' && rest[1..] == SshText(parts[1..]);
      }
      hide SshParts, SshText, PartText, NoBrackets;
      assert parts[0] + [] == parts[0];
      assert [parts[0]] + parts[1..] == parts;
    }
  }

  /** Brackets never survive parsing. */
  lemma {:induction false} SshDropsBrackets(s: string, inBrackets: bool)
    ensures forall p :: p in SshParts(s, inBrackets) ==> NoBrackets(p)
  {
    if s != [] {
      SshDropsBrackets(s[1..], true);
      SshDropsBrackets(s[1..], false);
      SshDropsBrackets(s[1..], inBrackets);
      var rest := SshParts(s[1..], inBrackets);
      forall p | p in SshParts(s, inBrackets) ensures NoBrackets(p) {
        if s[0] != '[' && s[0] != ']' && p !in rest && p != [] {
          assert p == [s[0]] + rest[0];
          assert NoBrackets(rest[0]);
        }
      }
    }
  }

  /** Printing and then parsing four parts gives them back exactly when none contains a bracket. */
  lemma SshRoundTrip(parts: seq<string>)
    requires |parts| == 4
    ensures ParseSsh(SshText(parts)) == Ok(parts) <==> forall p :: p in parts ==> NoBrackets(p)
  {
    if forall p :: p in parts ==> NoBrackets(p) {
      SshReads(parts);
    } else {
      SshDropsBrackets(SshText(parts), false);
    }
  }

  lemma {:induction false} PartTextPlain(part: string)
    requires ',' !in part
    ensures ',' !in PartText(part)
  {
  }

  /** A four-part entry in decimal and with brackets where they are needed is read back. */
  lemma SshEntryReads(bind: string, p: nat, host: string, q: nat)
    requires NoBrackets(bind) && NoBrackets(host) && ',' !in bind && ',' !in host
    requires (bind != [] ==> !IsSpace(bind[0])) && p <= 65535 && q <= 65535
    ensures Parse(SshText([bind, Decimal(p), host, Decimal(q)])) == Ok([Tunnel(Some(bind), p, Some(host), q)])
  {
    var parts := [bind, Decimal(p), host, Decimal(q)];
    var text := SshText(parts);
    PlainDigits(Decimal(p));
    PlainDigits(Decimal(q));
    SshTextIs(bind, p, host, q);
    OneEntry(text);
    DigitsHaveNoBrackets(p);
    DigitsHaveNoBrackets(q);
    SshReads(parts);
    PortReads(p, text);
    PortReads(q, text);
    hide Parse, ParsePort, Split, SshParts, SshText, Decimal, NoBrackets, IsSpace, AllDigits;
  }

  lemma DigitsHaveNoBrackets(n: nat)
    ensures NoBrackets(Decimal(n))
  {
    forall c | c in Decimal(n) ensures IsDigit(c) {
    }
  }

  lemma SshTextIs(bind: string, p: nat, host: string, q: nat)
    requires ',' !in bind && ',' !in host && (bind != [] ==> !IsSpace(bind[0]))
    ensures var text := SshText([bind, Decimal(p), host, Decimal(q)]);
            && text != [] && ',' !in text && !IsSpace(text[0]) && !IsSpace(text[|text| - 1])
            && |Split(text, ':')| > 2
  {
    var b, h, s, d := PartText(bind), PartText(host), Decimal(p), Decimal(q);
    PlainDigits(s);
    PlainDigits(d);
    PartTextPlain(bind);
    PartTextPlain(host);
    var rest := h + ":" + d;
    assert SshText([host, d]) == rest;
    assert SshText([s, host, d]) == s + ":" + rest;
    var text := b + ":" + (s + ":" + rest);
    assert SshText([bind, s, host, d]) == text by {
      assert [bind, s, host, d][1..] == [s, host, d] && [s, host, d][1..] == [host, d] && [host, d][1..] == [d];
    }
    SplitJoin(b, s + ":" + rest, ':');
    SplitJoin(s, rest, ':');
    assert text[|text| - 1] == d[|d| - 1];
    assert text[0] == if b == [] then ':' else b[0];
    hide Split, Decimal, SshText, AllDigits;
  }
}
