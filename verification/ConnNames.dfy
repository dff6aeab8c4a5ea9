/** How TcpServer::newConnection names connections: "<server>-<ip>:<port>#<id>", printed through a
    64-byte buffer. */
module ConnNames {

  const INT_MAX: nat := 0x7fff_ffff
  const NAME_BUFFER: nat := 64

  const DIGITS := "0123456789"

  /** "%d" and "%u" of a value that is not negative. */
  function Decimal(n: nat): (s: string)
    ensures |s| >= 1
  {
    if n < 10 then [DIGITS[n]] else Decimal(n / 10) + [DIGITS[n % 10]]
  }

  function DigitValue(c: char): nat {
    if '0' <= c <= '9' then (c - '0') as nat else 0
  }

  function ParseDecimal(s: string): nat {
    if s == "" then 0 else 10 * ParseDecimal(s[..|s| - 1]) + DigitValue(s[|s| - 1])
  }

  /** Reading back what was printed, so printing is injective. */
  lemma {:induction false} ParsePrinted(n: nat)
    ensures ParseDecimal(Decimal(n)) == n
    ensures forall i :: 0 <= i < |Decimal(n)| ==> '0' <= Decimal(n)[i] <= '9'
  {
    var s := Decimal(n);
    assert forall d: nat :: d < 10 ==> DigitValue(DIGITS[d]) == d && '0' <= DIGITS[d] <= '9';
    if n < 10 {
      assert s[..|s| - 1] == "";
    } else {
      ParsePrinted(n / 10);
      assert s[..|s| - 1] == Decimal(n / 10);
    }
  }

  function Power10(k: nat): nat {
    if k == 0 then 1 else 10 * Power10(k - 1)
  }

  lemma {:induction false} DecimalLength(n: nat, k: nat)
    requires 1 <= k && n < Power10(k)
    ensures |Decimal(n)| <= k
  {
    if n >= 10 {
      DecimalLength(n / 10, k - 1);
    }
  }

  lemma DecimalBelowIntMax(n: nat)
    requires n <= INT_MAX
    ensures |Decimal(n)| <= 10
  {
    assert Power10(10) == 10_000_000_000 by {
      assert Power10(10) == 100000 * Power10(5) && Power10(5) == 100000;
    }
    DecimalLength(n, 10);
  }

  /** inet_ntop and sprintf(":%u") of InetAddress::toIpPort. */
  datatype Address = Address(a: nat, b: nat, c: nat, d: nat, port: nat)

  predicate ValidAddress(x: Address) {
    x.a < 256 && x.b < 256 && x.c < 256 && x.d < 256 && x.port < 65536
  }

  function IpPort(x: Address): string {
    Decimal(x.a) + "." + Decimal(x.b) + "." + Decimal(x.c) + "." + Decimal(x.d) + ":" + Decimal(x.port)
  }

  /** snprintf keeps what fits in front of the terminating zero. */
  function Snprintf(size: nat, s: string): string
    requires size > 0
  {
    if |s| < size then s else s[..size - 1]
  }

  /** Nothing is lost exactly if there is room for the terminating zero as well. */
  lemma SnprintfKeeps(size: nat, s: string)
    requires size > 0
    ensures Snprintf(size, s) <= s && |Snprintf(size, s)| < size
    ensures Snprintf(size, s) == s <==> |s| < size
    ensures |s| >= size ==> |Snprintf(size, s)| == size - 1
  {
  }

  function Suffix(ipPort: string, id: nat): string {
    "-" + ipPort + "#" + Decimal(id)
  }

  function ConnName(server: string, ipPort: string, id: nat): string {
    server + Snprintf(NAME_BUFFER, Suffix(ipPort, id))
  }

  /** The buffer for the suffix holds 63 characters. */
  lemma BufferHolds(server: string, ipPort: string, id: nat)
    ensures var suffix := Suffix(ipPort, id);
            ConnName(server, ipPort, id) == server + if |suffix| <= 63 then suffix else suffix[..63]
  {
  }

  /** The suffix has at most 33 characters for every address and every id up to INT_MAX, so the buffer
      never cuts it. */
  lemma SuffixFits(x: Address, id: nat)
    requires ValidAddress(x) && id <= INT_MAX
    ensures |Suffix(IpPort(x), id)| <= 33
    ensures ConnName("", IpPort(x), id) == Suffix(IpPort(x), id)
  {
    assert Power10(3) == 1000 && Power10(5) == 100000;
    DecimalLength(x.a, 3);
    DecimalLength(x.b, 3);
    DecimalLength(x.c, 3);
    DecimalLength(x.d, 3);
    DecimalLength(x.port, 5);
    DecimalBelowIntMax(id);
  }

  /** Names tell connections of one server apart. */
  lemma NamesDiffer(server: string, x: Address, i: nat, j: nat)
    requires ValidAddress(x) && i <= INT_MAX && j <= INT_MAX
    ensures ConnName(server, IpPort(x), i) == ConnName(server, IpPort(x), j) <==> i == j
  {
    hide Decimal, IpPort;
    SuffixFits(x, i);
    SuffixFits(x, j);
    var front := server + "-" + IpPort(x) + "#";
    assert ConnName(server, IpPort(x), i) == front + Decimal(i);
    assert ConnName(server, IpPort(x), j) == front + Decimal(j);
    if ConnName(server, IpPort(x), i) == ConnName(server, IpPort(x), j) {
      assert Decimal(i) == (front + Decimal(i))[|front|..];
      assert Decimal(j) == (front + Decimal(j))[|front|..];
      ParsePrinted(i);
      ParsePrinted(j);
    }
  }

  // ----- reading a name back ------------------------------------------------------------------------------

  predicate IsDigit(c: char) {
    '0' <= c <= '9'
  }

  /** How many digits a text begins with. */
  function Digits(s: string): (k: nat)
    ensures k <= |s|
  {
    if s != "" && IsDigit(s[0]) then 1 + Digits(s[1..]) else 0
  }

  /** The numbers in a text, in order, and what stands between them. */
  function Fields(s: string): seq<nat>
    decreases |s|
  {
    if s == "" then []
    else if IsDigit(s[0]) then [ParseDecimal(s[..Digits(s)])] + Fields(s[Digits(s)..])
    else Fields(s[1..])
  }

  function Marks(s: string): string {
    if s == "" then "" else (if IsDigit(s[0]) then "" else [s[0]]) + Marks(s[1..])
  }

  lemma {:induction false} DigitsThen(s: string, rest: string)
    requires forall i :: 0 <= i < |s| ==> IsDigit(s[i])
    requires rest == "" || !IsDigit(rest[0])
    ensures Digits(s + rest) == |s| && Marks(s + rest) == Marks(rest)
  {
    if s == "" {
      assert s + rest == rest;
    } else {
      assert (s + rest)[1..] == s[1..] + rest;
      DigitsThen(s[1..], rest);
    }
  }

  /** A printed number in front of something else is read as that number. */
  lemma NumberThen(n: nat, rest: string)
    requires rest == "" || !IsDigit(rest[0])
    ensures Fields(Decimal(n) + rest) == [n] + Fields(rest) && Marks(Decimal(n) + rest) == Marks(rest)
  {
    ParsePrinted(n);
    DigitsThen(Decimal(n), rest);
    assert (Decimal(n) + rest)[..|Decimal(n)|] == Decimal(n);
    assert (Decimal(n) + rest)[|Decimal(n)|..] == rest;
  }

  lemma MarkThen(c: char, rest: string)
    requires !IsDigit(c)
    ensures Fields([c] + rest) == Fields(rest) && Marks([c] + rest) == [c] + Marks(rest)
  {
    assert ([c] + rest)[1..] == rest;
  }

  lemma FieldThen(c: char, n: nat, rest: string)
    requires !IsDigit(c) && (rest == "" || !IsDigit(rest[0]))
    ensures Fields([c] + Decimal(n) + rest) == [n] + Fields(rest)
    ensures Marks([c] + Decimal(n) + rest) == [c] + Marks(rest)
  {
    NumberThen(n, rest);
    MarkThen(c, Decimal(n) + rest);
    assert [c] + (Decimal(n) + rest) == [c] + Decimal(n) + rest;
  }

  /** The suffix taken apart from the front. */
  lemma SuffixNested(a: string, b: string, c: string, d: string, p: string, i: string)
    ensures "-" + (a + "." + b + "." + c + "." + d + ":" + p) + "#" + i ==
      "-" + a + ("." + b + ("." + c + ("." + d + (":" + p + ("#" + i)))))
  {
    var s3 := "." + c + ("." + d + (":" + p + ("#" + i)));
    assert s3 == "." + c + "." + d + ":" + p + "#" + i;
  }

  lemma PortAndId(port: nat, id: nat)
    ensures var s := ":" + Decimal(port) + ("#" + Decimal(id));
            Fields(s) == [port, id] && Marks(s) == ":#"
  {
    hide Decimal;
    assert "#" + Decimal(id) == "#" + Decimal(id) + "";
    FieldThen('#', id, "");
    assert Fields("") == [] && Marks("") == "";
    FieldThen(':', port, "#" + Decimal(id));
  }

  /** Fields and marks of the whole suffix. */
  lemma SuffixReadsBack(x: Address, id: nat)
    ensures Fields(Suffix(IpPort(x), id)) == [x.a, x.b, x.c, x.d, x.port, id]
    ensures Marks(Suffix(IpPort(x), id)) == "-...:#"
  {
    hide Decimal, Fields, Marks;
    SuffixNested(Decimal(x.a), Decimal(x.b), Decimal(x.c), Decimal(x.d), Decimal(x.port), Decimal(id));
    PortAndId(x.port, id);
    var s5 := ":" + Decimal(x.port) + ("#" + Decimal(id));
    var s4 := "." + Decimal(x.d) + s5;
    var s3 := "." + Decimal(x.c) + s4;
    var s2 := "." + Decimal(x.b) + s3;
    FieldThen('.', x.d, s5);
    FieldThen('.', x.c, s4);
    FieldThen('.', x.b, s3);
    FieldThen('-', x.a, s2);
  }

  /** A name is the server's name and then, in this order, the four parts of the address, the port and the
      id, with their marks. */
  lemma NameReadsBack(server: string, x: Address, id: nat)
    requires ValidAddress(x) && id <= 2147483647
    ensures var name := ConnName(server, IpPort(x), id);
            && server <= name
            && Fields(name[|server|..]) == [x.a, x.b, x.c, x.d, x.port, id]
            && Marks(name[|server|..]) == "-...:#"
  {
    hide IpPort, Decimal, Fields, Marks;
    SuffixFits(x, id);
    SuffixReadsBack(x, id);
    assert ConnName(server, IpPort(x), id)[|server|..] == Suffix(IpPort(x), id);
  }
}
