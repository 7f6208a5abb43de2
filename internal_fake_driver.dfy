/** The simulated SSD1306 of the internal package: the same 128x64 frame
    buffer as the v2 simulator, on a fixed port, with a blocking flag. */
module InternalFakeDriver {
  import opened Geometry
  import opened Outcomes
  import opened FakeRaster

  class FakeSsd1306 {
    const bounds: Rectangle
    /** The frame buffer; null until `Open`. */
    var buffer: array2?<Rgba>
    /** The HTTP server, by its listen address `Addr`; None while `server` is nil. */
    var server: Option<string>
    /** The event-stream clients, by channel identity. */
    var clients: set<nat>
    const port: string
    var blocking: bool
    var waitMode: bool

    ghost predicate Valid()
      reads this
    {
      bounds == Rect(0, 0, 128, 64) && (buffer != null ==> Fits(buffer, bounds))
    }

    /** `NewFakeSSD1306`. */
    constructor ()
      ensures Valid()
      ensures bounds.min == Origin && bounds.max == Point(128, 64)
      ensures buffer == null && server.None? && clients == {}
      ensures port == "8080" && !blocking && !waitMode
    {
      bounds := Rect(0, 0, 128, 64);
      port := "8080";
      clients := {};
      buffer := null;
      server := None;
      blocking := false;
      waitMode := false;
    }

    method SetBlocking(b: bool)
      requires Valid()
      modifies this`blocking
      ensures Valid() && blocking == b
    {
      blocking := b;
    }

    method IsBlocking() returns (b: bool)
      ensures b == blocking
    {
      b := blocking;
    }

    method SetWaitMode(mode: bool)
      requires Valid()
      modifies this`waitMode
      ensures Valid() && waitMode == mode
    {
      waitMode := mode;
    }

    method IsWaitMode() returns (mode: bool)
      ensures mode == waitMode
    {
      mode := waitMode;
    }

    /** A fresh frame buffer, all black, and a server started on `:port`,
        every interface. */
    method Open() returns (outcome: Outcome)
      requires Valid()
      modifies this`buffer, this`server
      ensures Valid() && outcome == Ok && server == Some(":" + port)
      ensures buffer != null && fresh(buffer)
      ensures forall i, j | 0 <= i < buffer.Length0 && 0 <= j < buffer.Length1 :: buffer[i, j] == Black
    {
      buffer := NewBlack(bounds);
      server := Some(":" + port);
      outcome := Ok;
    }

    /** Closing a running server drops every client and forgets the server,
        returning what closing it returned (`closeErr`); with no server it does nothing. */
    method Close(closeErr: Option<string>) returns (outcome: Outcome)
      requires Valid()
      modifies this`server, this`clients
      ensures Valid() && server.None?
      ensures old(server).Some? ==> clients == {} && outcome == FromCause(closeErr)
      ensures old(server).None? ==> clients == old(clients) && outcome == Ok
    {
      if server.Some? {
        clients := {};
        server := None;
        outcome := FromCause(closeErr);
      } else {
        outcome := Ok;
      }
    }

    method Bounds() returns (r: Rectangle)
      requires Valid()
      ensures r == bounds && r.min == Origin && r.max == Point(128, 64)
      ensures r.Width() == 128 && r.Height() == 64
    {
      r := bounds;
    }

    /** Copies `src` into the region `r` of the frame buffer, then publishes
        the frame; `stalled` are the clients whose channel is full, which
        the publication drops. */
    method Draw(r: Rectangle, src: Source, sp: Point, stalled: set<nat>) returns (outcome: Outcome)
      requires Valid()
      modifies buffer, this`clients
      ensures Valid()
      ensures buffer == null ==> outcome == Fail(DisplayNotOpen) && clients == old(clients)
      ensures buffer != null ==> outcome == Ok && clients == old(clients) - stalled
      ensures buffer != null ==>
        forall i, j | 0 <= i < buffer.Length0 && 0 <= j < buffer.Length1 ::
          buffer[i, j] == BlitPixel(r, src, sp, Point(bounds.min.x + i, bounds.min.y + j), old(buffer[i, j]))
    {
      if buffer == null {
        return Fail(DisplayNotOpen);
      }
      Blit(buffer, bounds, r, src, sp);
      clients := clients - stalled;
      outcome := Ok;
    }
  }
}
