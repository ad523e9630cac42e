/** The resumable benchmark run: one record per requested case is appended to a checkpoint as one line, and a
    later run picks up where an earlier one stopped, wherever that was, if it can still read the lines. */
module Checkpoint {
  import opened Options

  datatype Case = Case(id: nat, prompt: nat, expected: nat)

  datatype Record = Record(subject: Case, decision: nat)

  // ----- the file -----

  /** A line is a whole record, or something that does not parse. */
  datatype Line = Whole(record: Record) | Garbled

  /** The last line may lack its newline. */
  datatype File = File(lines: seq<Line>, terminated: bool)

  const EMPTY := File([], true)

  predicate WellFormed(f: File) {
    f.lines == [] ==> f.terminated
  }

  predicate Readable(f: File) {
    forall i | 0 <= i < |f.lines| :: f.lines[i].Whole?
  }

  function Records(f: File): (rs: seq<Record>)
    requires Readable(f)
    ensures |rs| == |f.lines|
  {
    seq(|f.lines|, i requires 0 <= i < |f.lines| => f.lines[i].record)
  }

  /** How much of a record and its newline reached the file. */
  datatype Cut = Part | AllButNewline | Complete

  /** Writing goes on where the file ends, be that in the middle of a line. */
  function Put(f: File, r: Record, cut: Cut): File {
    if f.terminated || f.lines == [] then
      File(f.lines + [if cut.Part? then Garbled else Whole(r)], cut.Complete?)
    else
      File(f.lines[..|f.lines| - 1] + [Garbled], cut.Complete?)
  }

  /** The records of one attempt, the last of them cut like this. */
  function Written(f: File, rs: seq<Record>, cut: Cut): File {
    if rs == [] then f
    else Put(Written(f, rs[..|rs| - 1], Complete), rs[|rs| - 1], cut)
  }

  /** What one attempt wrote can be read exactly if nothing was written, or the file ended in a newline and
      no record was cut in the middle; then the file is the old records and the new ones. */
  lemma {:induction false} ReadableWhenWritten(f: File, rs: seq<Record>, cut: Cut)
    requires WellFormed(f) && Readable(f)
    ensures WellFormed(Written(f, rs, cut)) && |f.lines| <= |Written(f, rs, cut).lines|
    ensures Written(f, rs, cut).terminated == if rs == [] then f.terminated else cut.Complete?
    ensures Readable(Written(f, rs, cut)) <==> rs == [] || (f.terminated && !cut.Part?)
    ensures Readable(Written(f, rs, cut)) ==> Records(Written(f, rs, cut)) == Records(f) + rs
    decreases |rs|
  {
    if rs != [] {
      var before := Written(f, rs[..|rs| - 1], Complete);
      ReadableWhenWritten(f, rs[..|rs| - 1], Complete);
      var after := Put(before, rs[|rs| - 1], cut);
      if !Readable(before) {
        GarbledStays(before, rs[|rs| - 1], cut);
      } else if before.terminated && !cut.Part? {
        assert rs == rs[..|rs| - 1] + [rs[|rs| - 1]];
        assert Records(after) == Records(before) + [rs[|rs| - 1]];
      } else {
        assert after.lines[|after.lines| - 1] == Garbled;
      }
    }
  }

  lemma GarbledStays(f: File, r: Record, cut: Cut)
    requires !Readable(f)
    ensures !Readable(Put(f, r, cut))
  {
    var i :| 0 <= i < |f.lines| && f.lines[i].Garbled?;
    assert Put(f, r, cut).lines[i].Garbled?;
  }

  // ----- any number of attempts -----

  /** What one attempt wrote. */
  datatype Attempt = Attempt(written: seq<Record>, cut: Cut)

  function After(attempts: seq<Attempt>): File {
    if attempts == [] then EMPTY
    else
      var last := attempts[|attempts| - 1];
      Written(After(attempts[..|attempts| - 1]), last.written, last.cut)
  }

  /** An attempt writes nothing to a file that it could not read. */
  predicate Possible(attempts: seq<Attempt>) {
    attempts != [] ==>
      && Possible(attempts[..|attempts| - 1])
      && (attempts[|attempts| - 1].written == [] || Readable(After(attempts[..|attempts| - 1])))
  }

  /** No record was cut in the middle, and one that lost its newline was the last thing written. */
  predicate Harmless(attempts: seq<Attempt>) {
    forall i | 0 <= i < |attempts| && attempts[i].written != [] ::
      && !attempts[i].cut.Part?
      && (attempts[i].cut.AllButNewline? ==> forall j | i < j < |attempts| :: attempts[j].written == [])
  }

  predicate AllTerminated(attempts: seq<Attempt>) {
    forall i | 0 <= i < |attempts| && attempts[i].written != [] :: attempts[i].cut.Complete?
  }

  lemma HarmlessSoFar(attempts: seq<Attempt>)
    requires attempts != []
    ensures var earlier := attempts[..|attempts| - 1]; var last := attempts[|attempts| - 1];
            && (Harmless(attempts) <==>
                  Harmless(earlier) && (last.written == [] || (!last.cut.Part? && AllTerminated(earlier))))
            && (AllTerminated(attempts) <==> AllTerminated(earlier) && (last.written == [] || last.cut.Complete?))
  {
    var earlier, last := attempts[..|attempts| - 1], attempts[|attempts| - 1];
    if Harmless(attempts) {
      assert forall i | 0 <= i < |earlier| :: earlier[i] == attempts[i];
    }
    if last.written != [] && Harmless(attempts) {
      assert forall i | 0 <= i < |earlier| && earlier[i].written != [] :: attempts[i].cut.Complete?;
    }
  }

  /** However often a run was interrupted and started again, a later start can read the checkpoint exactly if
      no record was cut in the middle and none that lost its newline was written after. */
  lemma {:induction false} ReadableUnlessHarmed(attempts: seq<Attempt>)
    requires Possible(attempts)
    ensures WellFormed(After(attempts))
    ensures Readable(After(attempts)) <==> Harmless(attempts)
    ensures Readable(After(attempts)) ==> (After(attempts).terminated <==> AllTerminated(attempts))
    decreases |attempts|
  {
    if attempts != [] {
      var earlier, last := attempts[..|attempts| - 1], attempts[|attempts| - 1];
      ReadableUnlessHarmed(earlier);
      HarmlessSoFar(attempts);
      if Readable(After(earlier)) {
        ReadableWhenWritten(After(earlier), last.written, last.cut);
      }
    }
  }

  /** A record that lost only its newline still reads; finishing the run over it does not. */
  lemma UnterminatedTailHarms(first: Record, second: Record)
    ensures var attempts := [Attempt([first], AllButNewline), Attempt([second], Complete)];
            && Readable(After(attempts[..1])) && Records(After(attempts[..1])) == [first]
            && Possible(attempts) && !Readable(After(attempts))
  {
    var attempts := [Attempt([first], AllButNewline), Attempt([second], Complete)];
    var one := attempts[..1];
    assert one[..0] == [] && attempts[..|attempts| - 1] == one && [first][..0] == [] && [second][..0] == [];
    assert Written(EMPTY, [], Complete) == EMPTY;
    assert After(one) == File([Whole(first)], false);
    assert Possible([]) && Possible(one);
    assert Written(After(one), [], Complete) == After(one) && After(one).lines[..0] == [];
    assert After(attempts) == Put(After(one), second, Complete);
    assert After(attempts).lines[0].Garbled?;
  }

  // ----- the runs -----

  datatype Outcome =
    | Finished
    | ConfigurationDiffers | TooManyRecords | SequenceDiffers | Unreadable   // refused, nothing written
    | Interrupted                                                             // an error or a kill on the way

  /** The records answer the first requests, in order. */
  predicate Answers(records: seq<Record>, requested: seq<Case>) {
    && |records| <= |requested|
    && forall i | 0 <= i < |records| :: records[i].subject == requested[i]
  }

  /** As long as it can be read, a matching prefix of the request sequence, and the starts that produced it. */
  predicate Matches(f: File, segments: seq<nat>, requested: seq<Case>) {
    && WellFormed(f)
    && (Readable(f) ==> Answers(Records(f), requested))
    && (forall i | 0 <= i < |segments| :: segments[i] <= |f.lines|)
    && (forall i, j | 0 <= i < j < |segments| :: segments[i] <= segments[j])
    && (f.lines != [] ==> segments != [] && segments[0] == 0)
  }

  lemma StillMatches(f: File, segments: seq<nat>, requested: seq<Case>, wrote: Attempt)
    requires Matches(f, segments, requested) && Readable(f)
    requires Answers(Records(f) + wrote.written, requested)
    ensures Matches(Written(f, wrote.written, wrote.cut), segments + [|f.lines|], requested)
  {
    ReadableWhenWritten(f, wrote.written, wrote.cut);
  }

  class Directory {
    var configuration: Option<nat>
    var file: File
    var segments: seq<nat>        // for each start, the number of records it found

    constructor ()
      ensures configuration.None? && file == EMPTY && segments == [] && Valid([])
    {
      configuration, file, segments := None, EMPTY, [];
    }

    predicate Valid(requested: seq<Case>)
      reads this
    {
      Matches(file, segments, requested)
    }

    /** Run the request sequence to its end, or until something interrupts it.  Whatever is written answers
        the next requests, and a finished run has answered exactly the sequence. */
    method Run(configuration: nat, requested: seq<Case>)
      returns (outcome: Outcome, results: seq<Record>, ghost wrote: Attempt)
      requires WellFormed(file)
      modifies this
      ensures WellFormed(file) && file == Written(old(file), wrote.written, wrote.cut)
      ensures old(segments) <= segments && (old(Valid(requested)) ==> Valid(requested))
      ensures outcome.Finished? ==>
                && Answers(results, requested) && |results| == |requested|
                && Readable(old(file)) && results == Records(old(file)) + wrote.written && wrote.cut.Complete?
                && this.configuration == Some(configuration)
      ensures outcome.ConfigurationDiffers? <==>
                old(this.configuration.Some?) && old(this.configuration.value) != configuration
      ensures outcome.Unreadable? <==> !Readable(old(file)) && !outcome.ConfigurationDiffers?
      ensures outcome.TooManyRecords? ==> |old(file).lines| > |requested|
      ensures outcome.SequenceDiffers? ==>
                Readable(old(file)) && |old(file).lines| <= |requested| && !Answers(Records(old(file)), requested)
      ensures !outcome.Finished? && !outcome.Interrupted? ==> wrote.written == [] && segments == old(segments)
      ensures outcome.Interrupted? ==>
                && Readable(old(file)) && Answers(Records(old(file)) + wrote.written, requested)
                && this.configuration == Some(configuration)
    {
      results, wrote := [], Attempt([], Complete);
      if this.configuration.Some? && this.configuration.value != configuration {
        return ConfigurationDiffers, results, wrote;
      }
      this.configuration := Some(configuration);
      if !Readable(file) { return Unreadable, results, wrote; }
      var previous := Records(file);
      if |previous| > |requested| { return TooManyRecords, results, wrote; }
      for i := 0 to |previous|
        invariant results == previous[..i] && Answers(results, requested)
      {
        if previous[i].subject != requested[i] { return SequenceDiffers, results, wrote; }
        results := results + [previous[i]];
      }
      assert results == previous;
      if |results| < |requested| {
        var ok;
        ok, results, wrote := Append(requested, results);
        if !ok { return Interrupted, results, wrote; }
      }
      outcome := Finished;
    }

    /** Start the router, note the segment, then answer and record the remaining requests one by one. */
    method Append(requested: seq<Case>, before: seq<Record>)
      returns (ok: bool, results: seq<Record>, ghost wrote: Attempt)
      requires WellFormed(file) && Readable(file) && before == Records(file)
      requires Answers(before, requested) && |before| < |requested|
      modifies this`file, this`segments
      ensures WellFormed(file) && file == Written(old(file), wrote.written, wrote.cut)
      ensures old(segments) <= segments && (old(Valid(requested)) ==> Valid(requested))
      ensures Answers(before + wrote.written, requested)
      ensures ok ==> |results| == |requested| && results == before + wrote.written && wrote.cut.Complete?
    {
      results, wrote := before, Attempt([], Complete);
      var started := *;
      if !started { return false, results, wrote; }
      segments := segments + [|results|];
      ok := true;
      while ok && |results| < |requested|
        invariant file == Written(old(file), wrote.written, wrote.cut) && (ok ==> wrote.cut.Complete?)
        invariant ok ==> results == before + wrote.written
        invariant Answers(before + wrote.written, requested) && segments == old(segments) + [|before|]
        decreases ok, |requested| - |results|
      {
        var decision: nat := *;
        var r := Record(requested[|results|], decision);
        ok, wrote := WriteOne(r, old(file), wrote);
        if ok { results := results + [r]; }
      }
      ReadableWhenWritten(old(file), wrote.written, wrote.cut);
      if old(Valid(requested)) {
        StillMatches(old(file), old(segments), requested, wrote);
      }
    }

    /** Record one answer.  An error may come before anything is written, and a kill may cut the line. */
    method WriteOne(r: Record, ghost start: File, ghost before: Attempt) returns (ok: bool, ghost wrote: Attempt)
      requires file == Written(start, before.written, Complete) && before.cut.Complete?
      modifies this`file
      ensures file == Written(start, wrote.written, wrote.cut)
      ensures wrote == before || wrote.written == before.written + [r]
      ensures ok ==> wrote == Attempt(before.written + [r], Complete)
    {
      assert (before.written + [r])[..|before.written|] == before.written;
      wrote := before;
      var failed := *;
      if failed { return false, wrote; }
      var cut: Cut, killed := *, *;
      file := Put(file, r, cut);
      wrote := Attempt(before.written + [r], cut);
      ok := cut.Complete? && !killed;
    }
  }

  /** Any number of attempts in a new directory, until one finishes.  The next start can read the checkpoint
      exactly if no attempt harmed it, and then it is a matching prefix of the request sequence; an attempt
      that finishes has answered the same sequence an uninterrupted run would have. */
  method Attempts(configuration: nat, requested: seq<Case>, times: nat)
    returns (d: Directory, finished: bool, results: seq<Record>, ghost attempts: seq<Attempt>)
    ensures Possible(attempts) && |attempts| <= times && d.file == After(attempts) && d.Valid(requested)
    ensures Readable(d.file) <==> Harmless(attempts)
    ensures Readable(d.file) ==> Answers(Records(d.file), requested)
    ensures finished ==>
              |results| == |requested| && forall i | 0 <= i < |requested| :: results[i].subject == requested[i]
    ensures finished && Harmless(attempts) ==> Records(d.file) == results
  {
    d := new Directory();
    finished, results, attempts := false, [], [];
    for i := 0 to times
      invariant fresh(d) && d.Valid(requested) && !finished
      invariant Possible(attempts) && |attempts| == i && d.file == After(attempts)
    {
      ghost var before := d.file;
      ghost var wrote;
      var outcome;
      outcome, results, wrote := d.Run(configuration, requested);
      assert (attempts + [wrote])[..|attempts|] == attempts;
      attempts := attempts + [wrote];
      if outcome.Finished? {
        ReadableUnlessHarmed(attempts);
        ReadableWhenWritten(before, wrote.written, wrote.cut);
        finished := true;
        return;
      }
    }
    ReadableUnlessHarmed(attempts);
  }
}
