/** The simulated SSD1306 of the v2 package: a 128x64 RGBA frame buffer
    published over HTTP. The HTTP server is modelled by whether it exists
    and by the set of connected event-stream clients. */
module FakeDriverV2 {
  import opened GoTypes
  import opened Geometry
  import opened Outcomes
  import opened FakeRaster

  const DefaultListenAddress := "127.0.0.1"
  const DefaultPort: Uint := 8080
  const TwoTo32: int := 0x1_0000_0000

  /** `getEnvWithDefault`: the variable's value (`value`, "" when unset), or the default when empty. */
  function EnvOr(value: string, default: string): (r: string)
    ensures value != "" ==> r == value
    ensures value == "" ==> r == default
    ensures r == "" ==> value == "" && default == ""
  {
    if value == "" then default else value
  }

  predicate IsDigit(c: char) {
    '0' <= c <= '9'
  }

  predicate AllDigits(s: string) {
    forall i :: 0 <= i < |s| ==> IsDigit(s[i])
  }

  /** The number a string of decimal digits denotes. */
  function DigitsValue(s: string): nat
    requires AllDigits(s)
  {
    if |s| == 0 then 0 else 10 * DigitsValue(s[..|s| - 1]) + (s[|s| - 1] as int - '0' as int)
  }

  /** `strconv.ParseUint(s, 10, 32)`: a non-empty string of decimal digits whose
      value fits in 32 bits (no sign, no prefix, no underscores in base 10). */
  function ParseUint32(s: string): (r: Option<nat>)
    ensures r.Some? ==> r.value < TwoTo32
    ensures r.Some? ==> s != "" && AllDigits(s) && r.value == DigitsValue(s)
    ensures r.None? ==> s == "" || !AllDigits(s) || DigitsValue(s) >= TwoTo32
  {
    if s != "" && AllDigits(s) && DigitsValue(s) < TwoTo32 then Some(DigitsValue(s)) else None
  }

  /** The decimal rendering of `n`, as `%d` prints it. */
  function Decimal(n: nat): (s: string)
    ensures s != "" && AllDigits(s)
  {
    if n < 10 then [('0' as int + n) as char]
    else Decimal(n / 10) + [('0' as int + n % 10) as char]
  }

  lemma {:induction false} DecimalValue(n: nat)
    ensures DigitsValue(Decimal(n)) == n
  {
    if n >= 10 {
      DecimalValue(n / 10);
      var s := Decimal(n);
      assert s[..|s| - 1] == Decimal(n / 10);
    }
  }

  /** Every port `%d` can print is read back by the configuration parser. */
  lemma ParseDecimal(n: nat)
    requires n < TwoTo32
    ensures ParseUint32(Decimal(n)) == Some(n)
  {
    DecimalValue(n);
  }

  /** The default port string is itself a valid port. */
  lemma DefaultPortParses()
    ensures ParseUint32("8080") == Some(DefaultPort as nat)
  {
    ParseDecimal(8080);
    assert Decimal(8080) == "8080";
  }

  /** The empty string, a sign and a non-digit are refused. */
  lemma ParseRejects()
    ensures ParseUint32("") == None
    ensures ParseUint32("-1") == None
    ensures ParseUint32("80a") == None
  {
    assert !IsDigit("-1"[0]);
    assert !IsDigit("80a"[2]);
  }

  /** A value of 2^32 or more is refused, however it is written in decimal. */
  lemma ParseRejectsLarge(n: nat)
    requires n >= TwoTo32
    ensures ParseUint32(Decimal(n)) == None
  {
    DecimalValue(n);
  }

  /** `fmt.Sprintf("%s:%d", host, port)`: the host, a colon, then the port in decimal. */
  function Address(host: string, port: nat): (a: string)
    ensures |a| > |host| + 1 && a[..|host|] == host && a[|host|] == ':'
    ensures a[|host| + 1..] == Decimal(port)
  {
    host + ":" + Decimal(port)
  }

  /** The port of a server address reads back as the port it was built from,
      for every port the configuration parser accepts. */
  lemma AddressPort(host: string, port: nat)
    requires port < TwoTo32
    ensures ParseUint32(Address(host, port)[|host| + 1..]) == Some(port)
  {
    ParseDecimal(port);
  }

  /** The port used when `FAKESSD1306_PORT` holds `portEnv`. */
  function PortFromEnv(portEnv: string): (p: Uint)
    ensures p < TwoTo32
    ensures portEnv == "" ==> p == DefaultPort
    ensures ParseUint32(portEnv).Some? ==> p == ParseUint32(portEnv).value
    ensures ParseUint32(portEnv).None? ==> p == DefaultPort
  {
    DefaultPortParses();
    match ParseUint32(EnvOr(portEnv, "8080"))
    case Some(n) => n
    case None => DefaultPort
  }

  class FakeSsd1306 {
    const bounds: Rectangle
    /** The frame buffer; null until `Open`. */
    var buffer: array2?<Rgba>
    /** The HTTP server, by its listen address `Addr`; None while `server` is nil. */
    var server: Option<string>
    /** The event-stream clients, by channel identity. */
    var clients: set<nat>
    var listenAddress: string
    var port: Uint
    var waitMode: bool

    ghost predicate Valid()
      reads this
    {
      bounds == Rect(0, 0, 128, 64) && (buffer != null ==> Fits(buffer, bounds))
    }

    /** `NewFakeSSD1306`, with the values of `FAKESSD1306_LISTEN_ADDRESS` and
        `FAKESSD1306_PORT` passed in ("" when unset). */
    constructor (listenEnv: string, portEnv: string)
      ensures Valid()
      ensures bounds.min == Origin && bounds.max == Point(128, 64)
      ensures buffer == null && server.None? && clients == {} && !waitMode
      ensures listenAddress == EnvOr(listenEnv, DefaultListenAddress)
      ensures port == PortFromEnv(portEnv)
    {
      bounds := Rect(0, 0, 128, 64);
      listenAddress := EnvOr(listenEnv, DefaultListenAddress);
      var portStr := EnvOr(portEnv, "8080");
      var parsed := ParseUint32(portStr);
      port := if parsed.Some? then parsed.value else DefaultPort;
      clients := {};
      buffer := null;
      server := None;
      waitMode := false;
    }

    method WithPort(p: Uint) returns (d: FakeSsd1306)
      requires Valid()
      modifies this`port
      ensures Valid() && d == this && port == p
    {
      port := p;
      d := this;
    }

    method WithListenAddress(addr: string) returns (d: FakeSsd1306)
      requires Valid()
      modifies this`listenAddress
      ensures Valid() && d == this && listenAddress == addr
    {
      listenAddress := addr;
      d := this;
    }

    method SetWaitMode(mode: bool)
      requires Valid()
      modifies this`waitMode
      ensures Valid() && waitMode == mode
    {
      waitMode := mode;
    }

    method IsWaitMode() returns (mode: bool)
      ensures mode == waitMode
    {
      mode := waitMode;
    }

    /** A fresh frame buffer, all black, and a server started on
        `listenAddress:port`. */
    method Open() returns (outcome: Outcome)
      requires Valid()
      modifies this`buffer, this`server
      ensures Valid() && outcome == Ok && server == Some(Address(listenAddress, port))
      ensures buffer != null && fresh(buffer)
      ensures forall i, j | 0 <= i < buffer.Length0 && 0 <= j < buffer.Length1 :: buffer[i, j] == Black
    {
      buffer := NewBlack(bounds);
      server := Some(Address(listenAddress, port));
      outcome := Ok;
    }

    /** Closing a running server drops every client and forgets the server,
        returning what closing it returned (`closeErr`); with no server it does nothing. */
    method Close(closeErr: Option<string>) returns (outcome: Outcome)
      requires Valid()
      modifies this`server, this`clients
      ensures Valid() && server.None?
      ensures old(server).Some? ==> clients == {} && outcome == FromCause(closeErr)
      ensures old(server).None? ==> clients == old(clients) && outcome == Ok
    {
      if server.Some? {
        clients := {};
        server := None;
        outcome := FromCause(closeErr);
      } else {
        outcome := Ok;
      }
    }

    method Bounds() returns (r: Rectangle)
      requires Valid()
      ensures r == bounds && r.min == Origin && r.max == Point(128, 64)
      ensures r.Width() == 128 && r.Height() == 64
    {
      r := bounds;
    }

    /** Copies `src` into the region `r` of the frame buffer, then publishes
        the frame; `stalled` are the clients whose channel is full, which
        the publication drops. */
    method Draw(r: Rectangle, src: Source, sp: Point, stalled: set<nat>) returns (outcome: Outcome)
      requires Valid()
      modifies buffer, this`clients
      ensures Valid()
      ensures buffer == null ==> outcome == Fail(DisplayNotOpen) && clients == old(clients)
      ensures buffer != null ==> outcome == Ok && clients == old(clients) - stalled
      ensures buffer != null ==>
        forall i, j | 0 <= i < buffer.Length0 && 0 <= j < buffer.Length1 ::
          buffer[i, j] == BlitPixel(r, src, sp, Point(bounds.min.x + i, bounds.min.y + j), old(buffer[i, j]))
    {
      if buffer == null {
        return Fail(DisplayNotOpen);
      }
      Blit(buffer, bounds, r, src, sp);
      clients := clients - stalled;
      outcome := Ok;
    }
  }
}
