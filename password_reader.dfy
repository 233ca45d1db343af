/** `PasswordReader` (`src/safe_cracker/password_reader.rs`): an iterator over
    several opened password files, one after the other. */
module PasswordReading {
  import opened Common

  /** One read of `Lines::next` on an opened file: a line, or an I/O or
      decoding error. */
  datatype LineRead = Line(text: string) | ReadFault

  /** What one call of `next` does: yields a password (`Some`), reports the
      end of every source (`None`), or panics in `res.unwrap()` on a read fault. */
  datatype Step = Yielded(password: string) | Exhausted | Panicked

  datatype OpenError = CannotOpen(path: string)

  /** The passwords a consumer receives from `rs` before the first fault. */
  function TextsBeforeFault(rs: seq<LineRead>): seq<string> {
    if rs == [] || rs[0].ReadFault? then [] else [rs[0].text] + TextsBeforeFault(rs[1..])
  }

  /** The texts of a source whose every read succeeds. */
  predicate FaultFree(rs: seq<LineRead>) {
    ReadFault !in rs
  }

  /** The reads still to come when source `index` has been advanced to
      `positions[index]` and the sources after it are untouched. */
  ghost function Pending(lines: seq<seq<LineRead>>, index: nat, positions: seq<nat>): seq<LineRead>
    requires index <= |lines| && |positions| == |lines|
    requires index < |lines| ==> positions[index] <= |lines[index]|
  {
    if index == |lines| then [] else lines[index][positions[index]..] + Flatten(lines[index + 1..])
  }

  /** Moving past a used-up source loses nothing. */
  lemma SkipUsedUpSource(lines: seq<seq<LineRead>>, index: nat, positions: seq<nat>)
    requires index < |lines| && |positions| == |lines| && positions[index] == |lines[index]|
    requires index + 1 < |lines| ==> positions[index + 1] == 0
    ensures Pending(lines, index, positions) == Pending(lines, index + 1, positions)
  {
  }

  /** Reading one line of the current source consumes the first pending read. */
  lemma AdvanceOneLine(lines: seq<seq<LineRead>>, index: nat, positions: seq<nat>)
    requires index < |lines| && |positions| == |lines| && positions[index] < |lines[index]|
    ensures Pending(lines, index, positions) != []
    ensures Pending(lines, index, positions)[0] == lines[index][positions[index]]
    ensures Pending(lines, index, positions[index := positions[index] + 1]) == Pending(lines, index, positions)[1..]
  {
  }

  /** One yielded line: its text comes first, and the fault status is that of the rest. */
  lemma TextsAfterLine(rs: seq<LineRead>)
    requires rs != [] && rs[0].Line?
    ensures TextsBeforeFault(rs) == [rs[0].text] + TextsBeforeFault(rs[1..])
    ensures ReadFault in rs <==> ReadFault in rs[1..]
  {
  }

  class PasswordReader {
    /** What each opened source yields, in source order (`lines` in the source,
        one `Lines` iterator per file). */
    const lines: seq<seq<LineRead>>
    /** How far each source's `Lines` iterator has been advanced. */
    var positions: seq<nat>
    /** `lines_index`: the source currently read from. */
    var linesIndex: nat

    /** Sources before `linesIndex` are used up, those after it are untouched. */
    ghost predicate Valid()
      reads this
    {
      && |positions| == |lines|
      && linesIndex <= |lines|
      && (forall i :: 0 <= i < |lines| ==> positions[i] <= |lines[i]|)
      && (forall i :: 0 <= i < linesIndex ==> positions[i] == |lines[i]|)
      && (forall i :: linesIndex < i < |lines| ==> positions[i] == 0)
    }

    /** Everything the iterator has still to produce. */
    ghost function Remaining(): seq<LineRead>
      reads this
      requires Valid()
    {
      Pending(lines, linesIndex, positions)
    }

    /** The struct literal at the end of `build`: every source unread, cursor on the first. */
    constructor (lines: seq<seq<LineRead>>)
      ensures Valid()
      ensures this.lines == lines && linesIndex == 0
      ensures forall i :: 0 <= i < |lines| ==> positions[i] == 0
      ensures Remaining() == Flatten(lines)
    {
      this.lines := lines;
      positions := seq(|lines|, _ => 0);
      linesIndex := 0;
      new;
      if |lines| > 0 {
        assert lines[0][0..] == lines[0];
      }
    }

    /** `PasswordReader::build`: opens every path in order; `File::open(path)?`
        makes it all-or-nothing, reporting the first path that does not open.
        `openable` maps each path that opens to the reads its lines give. */
    static method Build(sourcePaths: seq<string>, openable: map<string, seq<LineRead>>)
      returns (r: Result<PasswordReader, OpenError>)
      ensures r.Ok? <==> forall i :: 0 <= i < |sourcePaths| ==> sourcePaths[i] in openable
      ensures r.Err? ==> exists k :: 0 <= k < |sourcePaths| && r.error == CannotOpen(sourcePaths[k])
                                     && sourcePaths[k] !in openable
                                     && forall j :: 0 <= j < k ==> sourcePaths[j] in openable
      ensures r.Ok? ==> fresh(r.value) && r.value.Valid() && r.value.linesIndex == 0
      ensures r.Ok? ==> |r.value.lines| == |sourcePaths|
                        && forall i :: 0 <= i < |sourcePaths| ==> r.value.lines[i] == openable[sourcePaths[i]]
      ensures r.Ok? ==> r.value.Remaining() == Flatten(r.value.lines)
    {
      var lines: seq<seq<LineRead>> := [];
      for i := 0 to |sourcePaths|
        invariant |lines| == i
        invariant forall j :: 0 <= j < i ==> sourcePaths[j] in openable && lines[j] == openable[sourcePaths[j]]
      {
        var path := sourcePaths[i];
        if path !in openable {
          return Err(CannotOpen(path));
        }
        lines := lines + [openable[path]];
      }
      var reader := new PasswordReader(lines);
      return Ok(reader);
    }

    /** `Iterator::next`. A used-up source moves the cursor on by one and retries;
        the retry is a recursive call that terminates because fewer sources are left. */
    method Next() returns (r: Step)
      requires Valid()
      modifies this
      ensures Valid()
      ensures old(linesIndex) <= linesIndex
      ensures old(linesIndex) >= |lines| ==> r == Exhausted && linesIndex == old(linesIndex) && positions == old(positions)
      ensures r == Exhausted <==> old(Remaining()) == []
      ensures r == Exhausted ==> linesIndex == |lines| && Remaining() == []
      ensures old(Remaining()) != [] ==> Remaining() == old(Remaining())[1..]
      ensures old(Remaining()) != [] && old(Remaining())[0].Line? ==> r == Yielded(old(Remaining())[0].text)
      ensures old(Remaining()) != [] && old(Remaining())[0].ReadFault? ==> r == Panicked
      decreases |lines| - linesIndex
    {
      if linesIndex >= |lines| {
        return Exhausted;
      }
      var current := lines[linesIndex];
      var position := positions[linesIndex];
      if position == |current| {
        SkipUsedUpSource(lines, linesIndex, positions);
        linesIndex := linesIndex + 1;
        r := Next();
      } else {
        AdvanceOneLine(lines, linesIndex, positions);
        positions := positions[linesIndex := position + 1];
        match current[position]
        case Line(text) => r := Yielded(text);
        case ReadFault => r := Panicked;
      }
    }
  }

  /** Draining the iterator as the unit test's `for pw in password_reader` does:
      the passwords up to the first read fault, and whether that fault panicked. */
  method Drain(reader: PasswordReader) returns (passwords: seq<string>, panicked: bool)
    requires reader.Valid()
    modifies reader
    ensures reader.Valid()
    ensures passwords == TextsBeforeFault(old(reader.Remaining()))
    ensures panicked <==> ReadFault in old(reader.Remaining())
  {
    passwords, panicked := [], false;
    ghost var start := reader.Remaining();
    while true
      invariant reader.Valid()
      invariant TextsBeforeFault(start) == passwords + TextsBeforeFault(reader.Remaining())
      invariant ReadFault in start <==> ReadFault in reader.Remaining()
      decreases |reader.Remaining()|
    {
      ghost var before := reader.Remaining();
      var step := reader.Next();
      match step
      case Yielded(password) =>
        TextsAfterLine(before);
        passwords := passwords + [password];
      case Exhausted =>
        return;
      case Panicked =>
        panicked := true;
        return;
    }
  }

  /** The texts of each source, source by source. */
  function SourceTexts(sources: seq<seq<LineRead>>): (texts: seq<seq<string>>)
    ensures |texts| == |sources|
    ensures forall i :: 0 <= i < |sources| ==> texts[i] == TextsBeforeFault(sources[i])
  {
    if sources == [] then [] else [TextsBeforeFault(sources[0])] + SourceTexts(sources[1..])
  }

  /** A fault-free prefix contributes all its texts, and reading carries on past it. */
  lemma {:induction false} TextsBeforeFaultAppend(a: seq<LineRead>, b: seq<LineRead>)
    requires FaultFree(a)
    ensures TextsBeforeFault(a + b) == TextsBeforeFault(a) + TextsBeforeFault(b)
  {
    if a == [] {
      assert a + b == b;
    } else {
      assert (a + b)[0] == a[0] && (a + b)[1..] == a[1..] + b;
      assert a[0] in a;
      assert forall x :: x in a[1..] ==> x in a;
      TextsBeforeFaultAppend(a[1..], b);
    }
  }

  /** Draining a reader over fault-free sources yields exactly the
      concatenation of the sources' lines, in source order then file order. */
  lemma {:induction false} DrainIsConcatenation(sources: seq<seq<LineRead>>)
    requires forall i :: 0 <= i < |sources| ==> FaultFree(sources[i])
    ensures TextsBeforeFault(Flatten(sources)) == Flatten(SourceTexts(sources))
  {
    if sources != [] {
      DrainIsConcatenation(sources[1..]);
      TextsBeforeFaultAppend(sources[0], Flatten(sources[1..]));
      assert SourceTexts(sources)[1..] == SourceTexts(sources[1..]);
    }
  }

  /** A read fault anywhere in the sources is reached: draining panics there. */
  lemma {:induction false} FaultInSourceIsReached(sources: seq<seq<LineRead>>, k: nat)
    requires k < |sources| && ReadFault in sources[k]
    ensures ReadFault in Flatten(sources)
  {
    if k > 0 {
      FaultInSourceIsReached(sources[1..], k - 1);
    }
  }

  /** `build` followed by draining, for any paths: when every path opens and
      every opened source reads without fault, the passwords are the
      concatenation of the sources' lines, in path order then line order. */
  method BuildThenDrain(sourcePaths: seq<string>, openable: map<string, seq<LineRead>>)
    returns (passwords: seq<string>)
    requires forall i :: 0 <= i < |sourcePaths| ==> sourcePaths[i] in openable
    requires forall i :: 0 <= i < |sourcePaths| ==> FaultFree(openable[sourcePaths[i]])
    ensures passwords == Flatten(SourceTexts(seq(|sourcePaths|, i requires 0 <= i < |sourcePaths| => openable[sourcePaths[i]])))
  {
    var built := PasswordReader.Build(sourcePaths, openable);
    var reader := built.value;
    assert reader.lines == seq(|sourcePaths|, i requires 0 <= i < |sourcePaths| => openable[sourcePaths[i]]);
    DrainIsConcatenation(reader.lines);
    var panicked;
    passwords, panicked := Drain(reader);
  }

  /** The unit test `can_read_multiple_pw_files`: the same three-line file twice
      gives its six lines in order. */
  method CanReadMultiplePwFiles() returns (passwords: seq<string>)
    ensures passwords == ["test1", "test2", "test3", "test1", "test2", "test3"]
  {
    var path := "tests/resources/pw-list.txt";
    var file := [Line("test1"), Line("test2"), Line("test3")];
    var built := PasswordReader.Build([path, path], map[path := file]);
    assert built.Ok? by {
      assert forall i :: 0 <= i < |[path, path]| ==> [path, path][i] in map[path := file];
    }
    var reader := built.value;
    assert reader.lines == [file, file];
    DrainIsConcatenation(reader.lines);
    var panicked;
    passwords, panicked := Drain(reader);
    assert file[1..] == [Line("test2"), Line("test3")] && file[1..][1..] == [Line("test3")] && file[1..][1..][1..] == [];
    assert TextsBeforeFault(file) == ["test1", "test2", "test3"];
    assert [file, file][1..] == [file];
    assert SourceTexts([file, file]) == [["test1", "test2", "test3"], ["test1", "test2", "test3"]];
    assert Flatten([["test1", "test2", "test3"], ["test1", "test2", "test3"]][1..]) == ["test1", "test2", "test3"];
  }
}
