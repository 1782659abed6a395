// An input stream that hands its bytes out in pieces of any size.
module ChunkedReader {
  import opened Prelude
  import opened Bytes

  // What one call of `read` does: deliver at most so many bytes, be interrupted, or fail.
  datatype Event = Short(n: nat) | Interrupted | Fault

  datatype ReadError = WasInterrupted | Failed | UnexpectedEof

  predicate Faultless(events: seq<Event>) { forall e | e in events :: !e.Fault? }

  // No read is interrupted or fails.
  predicate Smooth(events: seq<Event>) { forall e | e in events :: e.Short? }

  // How many bytes the next call hands out, when `left` are left and at most `cap` are asked for.
  function Piece(left: nat, cap: nat, events: seq<Event>): (n: nat)
    ensures n <= left && n <= cap && (left > 0 && cap > 0 ==> n > 0)
  {
    var n := if left < cap then left else cap;
    if events != [] && events[0].Short? && 0 < events[0].n < n then events[0].n else n
  }

  // What one call does, exactly: the event at the head of the schedule decides.
  ghost predicate Delivers(was: Str, events: seq<Event>, cap: nat, r: Result<Str, ReadError>, left: Str) {
    var n := Piece(|was|, cap, events);
    if events == [] || events[0].Short? then r == Ok(was[..n]) && left == was[n..]
    else left == was && r == Err(if events[0].Interrupted? then WasInterrupted else Failed)
  }

  class Reader {
    const data: Str
    var pos: nat
    // The schedule of the coming reads; after it, reads deliver all that fits.
    var events: seq<Event>

    ghost predicate Valid()
      reads this
    {
      pos <= |data| < TwoTo64
    }

    ghost function Rest(): Str
      requires Valid()
      reads this
    {
      data[pos..]
    }

    constructor (data: Str, events: seq<Event>)
      requires |data| < TwoTo64
      ensures Valid() && this.data == data && Rest() == data && this.events == events
    {
      this.data, this.pos, this.events := data, 0, events;
    }

    // `Read::read` into a buffer of `cap` bytes; an empty piece means the end.
    method Read(cap: nat) returns (r: Result<Str, ReadError>)
      requires Valid() && cap > 0
      modifies this
      ensures Valid()
      ensures r.Ok? ==> |r.value| <= cap && old(Rest()) == r.value + Rest() && (r.value == [] ==> old(Rest()) == [])
      ensures r.Err? ==> Rest() == old(Rest()) && |events| < |old(events)| && !r.error.UnexpectedEof?
      ensures r == Err(Failed) ==> !Faultless(old(events))
      ensures Faultless(old(events)) ==> Faultless(events)
      ensures Smooth(old(events)) ==> r.Ok? && Smooth(events)
      ensures |events| <= |old(events)|
      ensures Delivers(old(Rest()), old(events), cap, r, Rest())
      ensures events == if old(events) == [] then [] else old(events)[1..]
    {
      var n := Piece(|data| - pos, cap, events);
      if events != [] {
        var e := events[0];
        assert e in events;
        events := events[1..];
        if e.Interrupted? { return Err(WasInterrupted); }
        if e.Fault? { return Err(Failed); }
      }
      r := Ok(data[pos..pos + n]);
      pos := pos + n;
    }

    // `Read::read_exact`: interrupted reads are tried again, the end is an error.
    method ReadExact(n: nat) returns (r: Result<Str, ReadError>)
      requires Valid()
      modifies this
      ensures Valid()
      ensures r.Ok? ==> |r.value| == n && old(Rest()) == r.value + Rest()
      ensures r.Err? ==> r.error.UnexpectedEof? || !Faultless(old(events))
      ensures r == Err(UnexpectedEof) ==> |old(Rest())| < n
      ensures Faultless(old(events)) ==> Faultless(events) && (r.Ok? <==> n <= |old(Rest())|)
    {
      hide Faultless, Delivers;
      var got: Str := [];
      while |got| < n
        invariant Valid() && |got| <= n && old(Rest()) == got + Rest()
        invariant Faultless(old(events)) ==> Faultless(events)
        decreases n - |got|, |events|
      {
        ghost var before := Rest();
        var piece := this.Read(n - |got|);
        match piece {
          case Ok(b) =>
            if b == [] { return Err(UnexpectedEof); }
            assert got + before == (got + b) + Rest();
            got := got + b;
          case Err(WasInterrupted) =>
          case Err(e) => return Err(e);
        }
      }
      return Ok(got);
    }
  }
}
