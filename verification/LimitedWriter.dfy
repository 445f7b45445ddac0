/** The writer that keeps the head of an engine's output and drops the rest. */
module LimitedWriter {
  import opened Basics

  type Byte = bv8

  /** The first `cap` bytes, or all of them. */
  function Take(cap: int, bytes: seq<Byte>): seq<Byte> {
    if cap <= 0 then [] else if |bytes| > cap then bytes[..cap] else bytes
  }

  /** How many bytes of `total` fit. */
  lemma TakeIsPrefix(cap: int, bytes: seq<Byte>)
    ensures Take(cap, bytes) <= bytes
    ensures cap <= 0 ==> |Take(cap, bytes)| == 0
    ensures 0 <= cap <= |bytes| ==> |Take(cap, bytes)| == cap
    ensures cap >= |bytes| ==> |Take(cap, bytes)| == |bytes|
  {
  }

  datatype Output = Output(sink: seq<Byte>, remaining: int)

  /** One write to a sink that does not fail. */
  function Written(o: Output, p: seq<Byte>): Output {
    var chunk := Take(o.remaining, p);
    Output(o.sink + chunk, o.remaining - |chunk|)
  }

  class Writer {
    var sink: seq<Byte>
    var remaining: int

    constructor (cap: int)
      ensures sink == [] && remaining == cap
    {
      sink, remaining := [], cap;
    }

    /** `fails` is how many bytes the sink takes before it fails, if it fails. A write to a sink
        that does not fail is reported in full, even where bytes were dropped. */
    method Write(p: seq<Byte>, fails: Option<nat>) returns (n: nat, ok: bool)
      modifies this
      ensures ok <==> fails.None? || old(remaining) <= 0
      ensures ok ==> n == |p| && Output(sink, remaining) == Written(Output(old(sink), old(remaining)), p)
      ensures ok ==>
                var stored := if old(remaining) <= 0 then 0 else if |p| < old(remaining) then |p| else old(remaining);
                sink == old(sink) + p[..stored] && remaining == old(remaining) - stored
      ensures !ok ==>
                var chunk := Take(old(remaining), p);
                && n == (if fails.value < |chunk| then fails.value else |chunk|)
                && sink == old(sink) + chunk[..n] && remaining == old(remaining) - n
    {
      if remaining <= 0 {
        return |p|, true;
      }
      var chunk := p;
      if |chunk| > remaining {
        chunk := chunk[..remaining];
      }
      match fails
      case None =>
        sink := sink + chunk;
        remaining := remaining - |chunk|;
        return |p|, true;
      case Some(k) =>
        var m := if k < |chunk| then k else |chunk|;
        sink := sink + chunk[..m];
        remaining := remaining - m;
        return m, false;
    }
  }

  // ----- any sequence of writes -----

  function Concat(ps: seq<seq<Byte>>): seq<Byte> {
    if ps == [] then [] else Concat(ps[..|ps| - 1]) + ps[|ps| - 1]
  }

  function WrittenAll(cap: int, ps: seq<seq<Byte>>): Output {
    if ps == [] then Output([], cap) else Written(WrittenAll(cap, ps[..|ps| - 1]), ps[|ps| - 1])
  }

  /** However the output is cut into writes, the sink holds the first bytes of it, up to the cap. */
  lemma {:induction false} KeepsTheHead(cap: int, ps: seq<seq<Byte>>)
    ensures WrittenAll(cap, ps).sink == Take(cap, Concat(ps))
    ensures WrittenAll(cap, ps).remaining == cap - |Take(cap, Concat(ps))|
    ensures var o, total := WrittenAll(cap, ps), |Concat(ps)|;
      && o.sink <= Concat(ps)
      && |o.sink| == (if cap <= 0 then 0 else if cap < total then cap else total)
      && o.remaining == cap - |o.sink|
  {
    if ps != [] {
      KeepsTheHead(cap, ps[..|ps| - 1]);
    }
  }
}
