// Spooling an unverified archive into a leased stage: whatever pieces the reader delivers,
// the completed blob is the whole input, appears at most once, and is never partial.
module SourceSpool {
  import opened Prelude
  import opened Bytes
  import opened Faults
  import opened ChunkedReader

  datatype SpoolError = AlreadyStaged | PartExists | SourceTooLarge | Failed

  class SourceStage {
    // `archive.blob` and `archive.part`.
    var blob: Option<Str>
    var part: Option<Str>
    // Whether each of the coming filesystem calls fails.
    var faults: seq<bool>

    constructor (faults: seq<bool>)
      ensures blob.None? && part.None? && this.faults == faults
    {
      blob, part, this.faults := None, None, faults;
    }

    // `spool_unverified_archive`.
    method SpoolUnverifiedArchive(input: Reader, max: u64) returns (r: Result<nat, SpoolError>)
      requires input.Valid()
      modifies this, input
      ensures r.Ok? ==>
        && old(blob).None? && blob == Some(old(input.Rest())) && part.None?
        && r.value == |old(input.Rest())| <= max
      ensures r.Err? ==> blob == old(blob)
      ensures r == Err(AlreadyStaged) <==> old(blob).Some? && (old(faults) == [] || !old(faults)[0])
      ensures Calm(old(faults)) && r.Err? && old(part).None? ==> part.None?
      ensures Calm(old(faults)) && Faultless(old(input.events)) && old(blob).None? && old(part).None? ==>
        r == if |old(input.Rest())| <= max then Ok(|old(input.Rest())|) else Err(SourceTooLarge)
    {
      hide Faultless, Calm;
      var failed;
      failed, faults := NextCall(faults);
      if failed { return Err(SpoolError.Failed); }
      if blob.Some? { return Err(AlreadyStaged); }
      failed, faults := NextCall(faults);
      if failed { return Err(SpoolError.Failed); }
      if part.Some? { return Err(PartExists); }
      part := Some([]);
      r := Transfer(input, max);
      if r.Err? {
        // An error of the removal is ignored.
        failed, faults := NextCall(faults);
        if !failed { part := None; }
      }
    }

    // The loop, and what follows it.
    method Transfer(input: Reader, max: u64) returns (r: Result<nat, SpoolError>)
      requires input.Valid() && part == Some([]) && blob.None?
      modifies this, input
      ensures Calm(old(faults)) ==> Calm(faults)
      ensures r.Ok? ==> blob == Some(old(input.Rest())) && part.None? && r.value == |old(input.Rest())| <= max
      ensures r.Err? ==> blob.None? && part.Some? && r != Err(AlreadyStaged)
      ensures Calm(old(faults)) && Faultless(old(input.events)) ==>
        r == if |old(input.Rest())| <= max then Ok(|old(input.Rest())|) else Err(SourceTooLarge)
    {
      hide Faultless, Calm, Delivers, Smooth;
      ghost var rest, f, c := input.Rest(), Faultless(input.events), Calm(faults);
      var total := 0;
      while true
        invariant input.Valid() && (f ==> Faultless(input.events)) && (c ==> Calm(faults))
        invariant part.Some? && blob.None? && rest == part.value + input.Rest() && total == |part.value| <= max
        decreases |input.Rest()|, |input.events|
      {
        var piece := input.Read(8192);
        match piece {
          case Ok(b) =>
            if b == [] { break; }
            Appended(rest, part.value, b, input.Rest());
            if total + |b| >= TwoTo64 { return Err(SourceTooLarge); }
            total := total + |b|;
            if total > max { return Err(SourceTooLarge); }
            var failed;
            failed, faults := NextCall(faults);
            if failed { return Err(SpoolError.Failed); }
            part := Some(part.value + b);
          case Err(WasInterrupted) =>
          case Err(_) => return Err(SpoolError.Failed);
        }
      }
      assert part.value == rest;
      r := Finish(total, rest);
    }

    // The sync and the rename.
    method Finish(total: nat, ghost rest: Str) returns (r: Result<nat, SpoolError>)
      requires part == Some(rest) && blob.None? && total == |rest|
      modifies this
      ensures Calm(old(faults)) ==> Calm(faults) && r.Ok?
      ensures r.Ok? ==> blob == Some(rest) && part.None? && r.value == total
      ensures r.Err? ==> blob.None? && part.Some? && r != Err(AlreadyStaged)
    {
      hide Calm;
      var failed;
      failed, faults := NextCall(faults);
      if failed { return Err(SpoolError.Failed); }
      // Nobody else makes the blob of a leased stage; it is looked for again all the same.
      if blob.Some? { return Err(AlreadyStaged); }
      failed, faults := NextCall(faults);
      if failed { return Err(SpoolError.Failed); }
      blob, part := part, None;
      return Ok(total);
    }
  }

  lemma Appended(rest: Str, had: Str, b: Str, left: Str)
    requires rest == had + (b + left)
    ensures rest == (had + b) + left
  {
  }

  // ----- several threads on one stage -----------------------------------------------------------------

  // A stage can be lent to several threads; between the two regions under the store lock any of them may
  // act. What keeps them apart is the part file, which is created exclusively.
  type Thread = nat

  datatype Doing = Waiting | Moving(input: Str, copied: nat, max: nat) | GivingUp

  datatype Stage = Stage(
    blob: Option<Str>,
    part: Option<Str>,
    doing: map<Thread, Doing>,
    published: seq<(Thread, Str)>)      // what returned `Ok`, with its input

  datatype Act =
    | Open(input: Str, max: nat, ok: bool)
    | Copy(n: nat, written: nat)        // one piece read, and how much of it was written
    | Publish(ok: bool)
    | RemovePart(ok: bool)
    | Die

  function DoingOf(s: Stage, a: Thread): Doing { if a in s.doing then s.doing[a] else Waiting }

  function Now(s: Stage, a: Thread, d: Doing): Stage { s.(doing := s.doing[a := d]) }

  function StageStep(s: Stage, a: Thread, act: Act): Option<Stage> {
    match (DoingOf(s, a), act)
    case (Waiting, Open(input, max, ok)) =>
      if !ok || s.blob.Some? || s.part.Some? then Some(s) else Some(Now(s.(part := Some([])), a, Moving(input, 0, max)))
    case (Moving(input, copied, max), Copy(n, written)) =>
      if n == 0 || copied + n > |input| || written > n || s.part.None? then None
      else if copied + n > max then Some(Now(s, a, GivingUp))
      else
        var s1 := s.(part := Some(s.part.value + input[copied..copied + written]));
        Some(Now(s1, a, if written == n then Moving(input, copied + n, max) else GivingUp))
    case (Moving(input, copied, _), Publish(ok)) =>
      if copied != |input| || s.part.None? then None
      else if !ok || s.blob.Some? then Some(Now(s, a, GivingUp))
      else Some(Now(s.(blob := s.part, part := None, published := s.published + [(a, input)]), a, Waiting))
    // An error of the removal is ignored.
    case (GivingUp, RemovePart(ok)) => Some(Now(if ok then s.(part := None) else s, a, Waiting))
    case (_, Die) => Some(Now(s, a, Waiting))
    case _ => None
  }

  function StageRun(s: Stage, acts: seq<(Thread, Act)>): Option<Stage>
    decreases |acts|
  {
    if acts == [] then Some(s)
    else
      match StageStep(s, acts[0].0, acts[0].1)
      case None => None
      case Some(s1) => StageRun(s1, acts[1..])
  }

  // The thread that has the part file: the others wait, and the file is its input so far.
  ghost predicate ThreadInv(s: Stage, a: Thread) {
    match DoingOf(s, a)
    case Waiting => true
    case Moving(input, copied, max) =>
      && s.blob.None? && copied <= |input| && copied <= max && s.part == Some(input[..copied])
      && forall b | b != a :: DoingOf(s, b) == Waiting
    case GivingUp => s.blob.None? && s.part.Some? && forall b | b != a :: DoingOf(s, b) == Waiting
  }

  ghost predicate StageInv(s: Stage) {
    && (forall a :: ThreadInv(s, a))
    && (if s.blob.None? then s.published == [] else |s.published| == 1 && s.blob == Some(s.published[0].1))
  }

  lemma StageStepKeeps(s: Stage, a: Thread, act: Act)
    requires StageInv(s) && StageStep(s, a, act).Some?
    ensures StageInv(StageStep(s, a, act).value)
    ensures s.blob.Some? ==>
      StageStep(s, a, act).value.blob == s.blob && StageStep(s, a, act).value.published == s.published
  {
    var s' := StageStep(s, a, act).value;
    assert ThreadInv(s, a);
    if act.Copy? && DoingOf(s, a).Moving? {
      var input, copied := DoingOf(s, a).input, DoingOf(s, a).copied;
      assert input[..copied] + input[copied..copied + act.written] == input[..copied + act.written];
    }
    if act.Publish? && DoingOf(s, a).Moving? {
      assert DoingOf(s, a).input[..|DoingOf(s, a).input|] == DoingOf(s, a).input;
    }
    forall b ensures DoingOf(s, b) == Waiting || (s.part.Some? && s.blob.None?) { assert ThreadInv(s, b); }
    assert forall b | b != a :: DoingOf(s', b) == DoingOf(s, b);
    forall b ensures ThreadInv(s', b) {
      assert ThreadInv(s, b);
      if DoingOf(s', b) != Waiting {
        forall c | c != b ensures DoingOf(s', c) == Waiting { assert ThreadInv(s, c); }
      }
    }
  }

  const NewStage: Stage := Stage(None, None, map[], [])

  // One thread alone, with no call failing: all of the input is in the blob, and the call returns `Ok`; over the
  // limit there is no blob.
  lemma OneThread(a: Thread, input: Str, max: nat)
    requires input != []
    ensures var s := StageRun(NewStage, [(a, Open(input, max, true)), (a, Copy(|input|, |input|))]);
      && s.Some?
      && (|input| > max ==> DoingOf(s.value, a) == GivingUp && s.value.blob == None)
      && (|input| <= max ==>
            var s' := StageStep(s.value, a, Publish(true));
            s'.Some? && s'.value.blob == Some(input) && s'.value.part == None && s'.value.published == [(a, input)])
  {
    var open, copy := (a, Open(input, max, true)), (a, Copy(|input|, |input|));
    var s1 := Now(NewStage.(part := Some([])), a, Moving(input, 0, max));
    assert StageStep(NewStage, a, open.1) == Some(s1);
    TwoSteps(NewStage, s1, open, copy);
    assert [] + input[0..0 + |input|] == input;
  }

  lemma TwoSteps(s: Stage, s1: Stage, x: (Thread, Act), y: (Thread, Act))
    requires StageStep(s, x.0, x.1) == Some(s1)
    ensures StageRun(s, [x, y]) == StageStep(s1, y.0, y.1)
  {
    hide StageStep;
    assert [x, y][1..] == [y];
    assert [y][1..] == [];
    if StageStep(s1, y.0, y.1).Some? { assert StageRun(StageStep(s1, y.0, y.1).value, []).Some?; }
  }

  // Whatever the threads do from a new stage on: at most one call returns `Ok`, the blob is then its whole
  // input, and it stays so whatever they do after that.
  lemma OneWholeBlob(acts: seq<(Thread, Act)>, more: seq<(Thread, Act)>)
    requires StageRun(NewStage, acts).Some? && StageRun(StageRun(NewStage, acts).value, more).Some?
    ensures var s := StageRun(NewStage, acts).value;
      && |s.published| <= 1 && (s.blob.Some? <==> s.published != [])
      && (s.blob.Some? ==>
            && s.blob == Some(s.published[0].1)
            && StageRun(s, more).value.blob == s.blob && StageRun(s, more).value.published == s.published)
  {
    StageRunKeeps(NewStage, acts);
    StageRunKeeps(StageRun(NewStage, acts).value, more);
  }

  lemma {:induction false} StageRunKeeps(s: Stage, acts: seq<(Thread, Act)>)
    requires StageInv(s) && StageRun(s, acts).Some?
    ensures var s' := StageRun(s, acts).value;
      StageInv(s') && (s.blob.Some? ==> s'.blob == s.blob && s'.published == s.published)
    decreases |acts|
  {
    if acts != [] {
      StageStepKeeps(s, acts[0].0, acts[0].1);
      StageRunKeeps(StageStep(s, acts[0].0, acts[0].1).value, acts[1..]);
    }
  }
}
