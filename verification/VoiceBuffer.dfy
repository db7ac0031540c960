/**
 The voice buffer between a microphone and a connection that is not ready yet: a ring that fills until playback
 starts, and then delays what comes in by what it holds. Samples are real numbers.
 */
module VoiceBuffer {
  import opened Wrappers

  datatype Message = Overflow | Drained

  datatype Command = Start | Finish | Cancel

  /** The sum of the channels at a frame; a channel that is too short adds nothing. */
  function Sum(input: seq<seq<real>>, frame: nat): real {
    if input == [] then 0.0
    else
      var channel := input[|input| - 1];
      Sum(input[..|input| - 1], frame) + if frame < |channel| then channel[frame] else 0.0
  }

  function Mixed(input: seq<seq<real>>, frame: nat): real {
    if input == [] then 0.0 else Sum(input, frame) / |input| as real
  }

  /** The first n frames of an input, mixed. */
  function Frames(input: seq<seq<real>>, n: nat): (frames: seq<real>)
    ensures |frames| == n
  {
    if n == 0 then [] else Frames(input, n - 1) + [Mixed(input, n - 1)]
  }

  function Count(messages: seq<Message>, message: Message): nat {
    multiset(messages)[message]
  }

  function Zeros(n: nat): (zeros: seq<real>)
    ensures |zeros| == n
  {
    seq(n, _ => 0.0)
  }

  predicate Within(channel: seq<real>, frame: nat, low: real, high: real) {
    frame < |channel| && low <= channel[frame] <= high
  }

  lemma SumNext(input: seq<seq<real>>, frame: nat)
    requires input != [] && frame < |input[|input| - 1]|
    ensures Sum(input, frame) == Sum(input[..|input| - 1], frame) + input[|input| - 1][frame]
  {
  }

  lemma {:induction false} SumWithin(input: seq<seq<real>>, frame: nat, low: real, high: real)
    requires forall channel <- input :: Within(channel, frame, low, high)
    ensures Bounds(low * |input| as real, Sum(input, frame), high * |input| as real)
  {
    if input != [] {
      var n := |input| - 1;
      assert Within(input[n], frame, low, high);
      SumNext(input, frame);
      hide Sum, Bounds;
      SumWithin(input[..n], frame, low, high);
      OneMoreWithin(low, high, Sum(input[..n], frame), input[n][frame], n as real);
      assert |input| as real == n as real + 1.0;
    }
  }

  predicate Bounds(low: real, sum: real, high: real) {
    low <= sum <= high
  }

  lemma OneMoreWithin(low: real, high: real, sum: real, sample: real, n: real)
    requires Bounds(low * n, sum, high * n) && low <= sample <= high
    ensures Bounds(low * (n + 1.0), sum + sample, high * (n + 1.0))
  {
    assert low * (n + 1.0) == low * n + low && high * (n + 1.0) == high * n + high;
  }

  /** Mixing is averaging: it leaves a single channel as it is, and no channels are exceeded. */
  lemma MixedWithin(input: seq<seq<real>>, frame: nat, low: real, high: real)
    requires input != [] && forall channel <- input :: Within(channel, frame, low, high)
    ensures low <= Mixed(input, frame) <= high
    ensures |input| == 1 ==> frame < |input[0]| && Mixed(input, frame) == input[0][frame]
  {
    SumWithin(input, frame, low, high);
    Divided(low, high, Sum(input, frame), |input| as real);
    if |input| == 1 {
      assert Within(input[0], frame, low, high);
      assert input[..0] == [] && Sum(input, frame) == Sum([], frame) + input[0][frame];
    }
  }

  lemma Divided(low: real, high: real, sum: real, n: real)
    requires n > 0.0 && low * n <= sum <= high * n
    ensures low <= sum / n <= high
  {
    assert sum == (sum / n) * n;
  }

  method Mix(input: seq<seq<real>>, frame: nat) returns (sample: real)
    ensures sample == Mixed(input, frame)
  {
    sample := 0.0;
    var k := 0;
    while k < |input|
      invariant 0 <= k <= |input| && sample == Sum(input[..k], frame)
    {
      assert input[..k + 1][..k] == input[..k];
      if frame < |input[k]| {
        sample := sample + input[k][frame];
      }
      k := k + 1;
    }
    assert input[..k] == input;
    if |input| > 0 {
      sample := sample / |input| as real;
    }
  }

  /** A position below twice the capacity, in the ring. */
  function Around(i: nat, capacity: nat): nat
    requires i < 2 * capacity
  {
    if i < capacity then i else i - capacity
  }

  lemma NextAround(i: nat, capacity: nat)
    requires i < capacity
    ensures (i + 1) % capacity == Around(i + 1, capacity)
  {
    if i + 1 < capacity {
      SmallRemainder(i + 1, capacity);
    } else {
      SmallRemainder(0, capacity);
      assert i + 1 == capacity * 1 + 0;
    }
  }

  lemma SmallRemainder(i: nat, capacity: nat)
    requires i < capacity
    ensures i % capacity == i
  {
  }

  /** A stretch of the ring. */
  function Between(ring: seq<real>, read: nat, length: nat): (stretch: seq<real>)
    requires length <= |ring| && (read < |ring| || (ring == [] && read == 0))
    ensures |stretch| == length
  {
    if read + length <= |ring| then ring[read..read + length] else ring[read..] + ring[..read + length - |ring|]
  }

  lemma Pushed(ring: seq<real>, read: nat, length: nat, sample: real)
    requires read < |ring| && length < |ring|
    ensures Between(ring[Around(read + length, |ring|) := sample], read, length + 1) == Between(ring, read, length)
            + [sample]
  {
  }

  lemma Popped(ring: seq<real>, read: nat, length: nat)
    requires read < |ring| && 0 < length <= |ring|
    ensures ring[read] == Between(ring, read, length)[0]
    ensures Between(ring, Around(read + 1, |ring|), length - 1) == Between(ring, read, length)[1..]
  {
  }

  /** A block that begins with what has just gone out, and is silent once nothing is left. */
  ghost predicate Played(before: seq<real>, after: seq<real>, block: seq<real>, left: nat) {
    exists n: nat :: n <= |block| && after == before + block[..n] && block[n..] == Zeros(|block| - n)
      && (n < |block| ==> left == 0)
  }

  /** Each message is posted once, when its flag is set. */
  ghost predicate Posted(port: seq<Message>, overflowed: bool, drained: bool) {
    Count(port, Overflow) == (if overflowed then 1 else 0) && Count(port, Drained) == (if drained then 1 else 0)
  }

  lemma PostOverflow(port: seq<Message>, drained: bool)
    requires Posted(port, false, drained)
    ensures Posted(port + [Overflow], true, drained)
  {
  }

  lemma PostDrained(port: seq<Message>, overflowed: bool)
    requires Posted(port, overflowed, false)
    ensures Posted(port + [Drained], overflowed, true)
  {
  }

  class Buffer {
    const capacity: nat
    const samples: array<real>
    var read: nat
    var write: nat
    var length: nat
    var started: bool
    var finished: bool
    var cancelled: bool
    var overflowed: bool
    var drained: bool
    // Everything posted to the port.
    var port: seq<Message>
    // Every sample that came in while recording, and every sample that went out of it.
    ghost var offered: seq<real>
    ghost var emitted: seq<real>

    ghost predicate Ring()
      reads `read, `write, `length
    {
      && samples.Length == capacity && length <= capacity
      && (if capacity == 0 then read == write == 0 else read < capacity && write == Around(read + length, capacity))
    }

    ghost function Held(): (held: seq<real>)
      requires Ring()
      reads this, samples
    {
      Between(samples[..], read, length)
    }

    /** The buffer is a queue: what went out, followed by what is held, is what came in. */
    ghost predicate Queue()
      requires Ring()
      reads this, samples
    {
      !overflowed && !cancelled ==> offered == emitted + Held()
    }

    ghost predicate Valid()
      reads this, samples
    {
      && Ring() && Posted(port, overflowed, drained) && Queue()
      && (cancelled ==> finished && length == 0)
      && (drained ==> started && finished && length == 0)
    }

    constructor (capacity: nat)
      ensures Valid() && this.capacity == capacity && fresh(samples)
      ensures !started && !finished && !cancelled && !overflowed && !drained && offered == [] && emitted == []
              && port == []
    {
      this.capacity := capacity;
      samples := new real[capacity](_ => 0.0);
      read, write, length := 0, 0, 0;
      started, finished, cancelled, overflowed, drained := false, false, false, false, false;
      port, offered, emitted := [], [], [];
    }

    method OnMessage(command: Command)
      requires Valid()
      modifies this
      ensures Valid() && port == old(port) && offered == old(offered) && emitted == old(emitted)
      ensures overflowed == old(overflowed) && drained == old(drained)
      ensures started == (old(started) || command.Start?)
      ensures finished == (old(finished) || command.Finish? || command.Cancel?)
      ensures cancelled == (old(cancelled) || command.Cancel?)
      ensures !command.Cancel? ==> Held() == old(Held())
    {
      match command
      case Start => started := true;
      case Finish => finished := true;
      case Cancel =>
        cancelled, finished, length, read := true, true, 0, write;
    }

    method Push(sample: real) returns (ok: bool)
      requires Ring()
      modifies `write, `length, samples
      ensures Ring() && read == old(read)
      ensures ok == (old(length) < capacity)
      ensures Held() == if ok then old(Held()) + [sample] else old(Held())
    {
      if length >= capacity {
        return false;
      }
      Pushed(samples[..], read, length, sample);
      NextAround(write, capacity);
      ghost var after := samples[..][write := sample];
      samples[write] := sample;
      assert samples[..] == after;
      write := (write + 1) % capacity;
      length := length + 1;
      return true;
    }

    method Pop() returns (sample: real)
      requires Ring() && length > 0
      modifies `read, `length
      ensures Ring() && sample == old(Held())[0] && Held() == old(Held())[1..] && length < capacity
    {
      Popped(samples[..], read, length);
      NextAround(read, capacity);
      sample := samples[read];
      read := (read + 1) % capacity;
      length := length - 1;
    }

    /** Before the start, samples are kept for as long as there is room. */
    method Record(input: seq<seq<real>>, frames: nat)
      requires Valid() && !started && !finished && !cancelled
      modifies `write, `length, `overflowed, `port, `offered, samples
      ensures Valid() && offered == old(offered) + Frames(input, frames)
      ensures port == old(port) + if overflowed && !old(overflowed) then [Overflow] else []
      ensures var room := capacity - old(length);
              && (overflowed <==> old(overflowed) || frames > room)
              && Held() == old(Held()) + Frames(input, if frames <= room then frames else room)
    {
      hide Mixed, Between, Posted, Frames, Around;
      ghost var before, came := Held(), offered;
      NoFrames(before, input);
      var frame := 0;
      while frame < frames
        invariant 0 <= frame <= frames && Ring() && port == old(port) && overflowed == old(overflowed)
        invariant length == old(length) + frame && Held() == before + Frames(input, frame)
        invariant offered == came
      {
        var sample := Mix(input, frame);
        var ok := Push(sample);
        if !ok {
          if !overflowed {
            PostOverflow(port, drained);
            overflowed := true;
            port := port + [Overflow];
          }
          break;
        }
        FramesNext(before, input, frame);
        frame := frame + 1;
      }
      offered := offered + Frames(input, frames);
      if !old(overflowed) {
        FramesLater(came, emitted, before, Frames(input, frames));
      }
    }

    /** The oldest sample leaves, and while recording another takes its place. */
    method Exchange(input: seq<seq<real>>, frame: nat, recording: bool) returns (oldest: real)
      requires Ring() && length > 0
      modifies `read, `write, `length, samples
      ensures Ring() && oldest == old(Held())[0] && (recording ==> length > 0)
      ensures Held() == old(Held())[1..] + if recording then [Mixed(input, frame)] else []
    {
      hide Ring, Mixed, Between, Around;
      oldest := Pop();
      if recording {
        var sample := Mix(input, frame);
        var ok := Push(sample);
        if !ok {
          // Overflow would be posted here, but the sample just popped has left room.
          assert false;
        }
      }
    }

    /** The sample that goes out in one frame, if there is any: the oldest, or the one that just comes in. */
    method Emit(input: seq<seq<real>>, frame: nat, recording: bool) returns (sample: Option<real>)
      requires Ring()
      modifies `read, `write, `length, `offered, `emitted, samples
      ensures Ring() && (sample.None? <==> old(length) == 0 && !recording) && (!recording ==> length <= old(length))
      ensures emitted == old(emitted) + if sample.Some? then [sample.value] else []
      ensures offered == old(offered) + if recording then [Mixed(input, frame)] else []
      ensures old(offered) == old(emitted) + old(Held()) ==> offered == emitted + Held()
    {
      hide Ring, Mixed, Between, Around;
      ghost var held := Held();
      if length > 0 {
        var oldest := Exchange(input, frame, recording);
        Passed(emitted, oldest, held, if recording then [Mixed(input, frame)] else []);
        emitted := emitted + [oldest];
        sample := Some(oldest);
      } else if recording {
        var mixed := Mix(input, frame);
        emitted := emitted + [mixed];
        sample := Some(mixed);
      } else {
        sample := None;
      }
      offered := offered + if recording then [Mixed(input, frame)] else [];
    }

    /** After the start, each frame out is the oldest sample, and each frame in becomes the newest. */
    method Delay(input: seq<seq<real>>, output: array<real>)
      requires Valid() && started && !cancelled && output != samples
      requires forall i | 0 <= i < output.Length :: output[i] == 0.0
      modifies `read, `write, `length, `offered, `emitted, samples, output
      ensures Valid()
      ensures offered == old(offered) + if !finished && input != [] then Frames(input, output.Length) else []
      ensures Played(old(emitted), emitted, output[..], length)
    {
      hide Ring, Mixed, Between, Posted, Frames, Around, Zeros, Played;
      ghost var came, went := offered, emitted;
      NoFrames(came, input);
      ghost var n := 0;
      var recording := !finished && input != [];
      var frame := 0;
      while frame < output.Length
        invariant 0 <= frame <= output.Length && Ring()
        invariant offered == came + if recording then Frames(input, frame) else []
        invariant n <= frame && emitted == went + output[..n] && (n < frame ==> length == 0 && !recording)
        invariant forall i | n <= i < output.Length :: output[i] == 0.0
        invariant !overflowed ==> offered == emitted + Held()
        invariant drained ==> length == 0
      {
        ghost var out := output[..n];
        var sample := Emit(input, frame, recording);
        FramesNext(came, input, frame);
        if sample.Some? {
          output[frame] := sample.value;
          n := n + 1;
          assert output[..n] == out + [sample.value];
        }
        frame := frame + 1;
      }
      assert output[..][..n] == output[..n];
      PlayedUpTo(went, emitted, output[..], n, length);
    }

    /** One block of the audio graph. */
    method Process(input: seq<seq<real>>, output: array?<real>)
      requires Valid() && output != samples
      modifies this, samples
      modifies if output == null then {} else {output}
      ensures Valid()
      ensures started == old(started) && finished == old(finished) && cancelled == old(cancelled)
      ensures output == null ==>
              port == old(port) && offered == old(offered) && emitted == old(emitted) && Held() == old(Held())
      // Once started, nothing overflows.
      ensures old(started) ==> overflowed == old(overflowed)
      ensures output != null && !started && !finished && !cancelled ==>
                (overflowed <==> old(overflowed)
                                 || (if input == [] then output.Length else |input[0]|) > capacity - old(length))
      ensures output != null && started && !cancelled ==>
                Played(old(emitted), emitted, output[..], length)
      ensures output != null && (!started || cancelled)
              ==> emitted == old(emitted) && output[..] == Zeros(output.Length)
      ensures output != null ==>
                offered == old(offered) +
                if !started && !finished then Frames(input, if input == [] then output.Length else |input[0]|)
                else if started && !finished && input != [] then Frames(input, output.Length)
                else []
      // Drained is posted once everything that was to come has come and gone.
      ensures output != null ==> drained == (old(drained) || (started && finished && length == 0 && !cancelled))
      ensures port == old(port)
                      + (if overflowed && !old(overflowed) then [Overflow] else [])
                      + (if drained && !old(drained) then [Drained] else [])
    {
      hide Ring, Posted, Frames, Between, Around, Zeros, Played;
      if output == null {
        return;
      }
      var k := 0;
      while k < output.Length
        invariant 0 <= k <= output.Length && forall i | 0 <= i < k :: output[i] == 0.0
        modifies output
      {
        output[k] := 0.0;
        k := k + 1;
      }
      OnlyZeros(output[..]);
      var frames := if input == [] then output.Length else |input[0]|;
      if !started && !finished && !cancelled {
        Record(input, frames);
      } else if started && !cancelled {
        Delay(input, output);
      }
      if started && finished && length == 0 && !drained && !cancelled {
        PostDrained(port, overflowed);
        drained := true;
        port := port + [Drained];
      }
    }
  }

  lemma FramesNext(before: seq<real>, input: seq<seq<real>>, frame: nat)
    ensures before + Frames(input, frame) + [Mixed(input, frame)] == before + Frames(input, frame + 1)
    ensures Frames(input, frame) + [Mixed(input, frame)] == Frames(input, frame + 1)
  {
  }

  lemma FramesLater(came: seq<real>, went: seq<real>, held: seq<real>, more: seq<real>)
    requires came == went + held
    ensures came + more == went + (held + more)
  {
  }

  lemma PlayedUpTo(before: seq<real>, after: seq<real>, block: seq<real>, n: nat, left: nat)
    requires n <= |block| && after == before + block[..n] && (n < |block| ==> left == 0)
    requires forall i | n <= i < |block| :: block[i] == 0.0
    ensures Played(before, after, block, left)
  {
    OnlyZeros(block[n..]);
  }

  lemma OnlyZeros(rest: seq<real>)
    requires forall i | 0 <= i < |rest| :: rest[i] == 0.0
    ensures rest == Zeros(|rest|)
  {
  }

  lemma NoFrames(before: seq<real>, input: seq<seq<real>>)
    ensures before + Frames(input, 0) == before && Frames(input, 0) == []
  {
  }

  /** A sample moves from what is held to what went out, and others may come in behind. */
  lemma Passed(went: seq<real>, oldest: real, held: seq<real>, more: seq<real>)
    requires held != [] && held[0] == oldest
    ensures went + held + more == went + [oldest] + (held[1..] + more)
  {
    assert held == [oldest] + held[1..];
  }
}
