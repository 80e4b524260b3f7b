// Following a file by lines while its writer lives, and to its end after
// (src/runner/tail.rs). Bytes that are not UTF-8 are not replaced.
module Tail {
  import opened Events

  type Bytes = seq<char>

  /// How one read goes: up to a newline or the end of the file as it stands,
  /// or broken off by an error after some bytes.
  datatype Read = ReadsOn | BreaksOff(after: nat)

  /// One look: whether the writer was alive just before the read, and the file
  /// the read saw.
  datatype Look = Look(writerAlive: bool, content: Bytes, read: Read)

  /// A writer that appends to `file` and is gone by look `goneBy`. Nothing is
  /// said of when it exits: a look that finds it gone comes after its last
  /// write.
  ghost predicate Writes(looks: nat -> Look, file: Bytes, goneBy: nat) {
    && (forall n: nat :: looks(n).content <= file)
    && (forall n: nat, m: nat :: n <= m ==> looks(n).content <= looks(m).content)
    && (forall n: nat :: !looks(n).writerAlive ==> looks(n).content == file)
    && (forall n: nat :: n >= goneBy ==> !looks(n).writerAlive)
  }

  lemma LooksGrow(looks: nat -> Look, file: Bytes, goneBy: nat, n: nat)
    requires Writes(looks, file, goneBy)
    ensures looks(n).content <= file
    ensures forall m: nat :: n <= m ==> |looks(n).content| <= |looks(m).content|
  {
  }

  function NewlineFrom(bytes: Bytes, from: nat): (end: nat)
    requires from <= |bytes|
    ensures from <= end <= |bytes|
    ensures forall i :: from <= i < end ==> bytes[i] != '\n'
    ensures end < |bytes| ==> bytes[end] == '\n'
    decreases |bytes| - from
  {
    if from == |bytes| || bytes[from] == '\n' then from else NewlineFrom(bytes, from + 1)
  }

  function Terminated(lines: seq<Bytes>): Bytes {
    if lines == [] then [] else Terminated(lines[..|lines| - 1]) + lines[|lines| - 1] + ['\n']
  }

  lemma TerminatedOneMore(lines: seq<Bytes>, line: Bytes)
    ensures Terminated(lines + [line]) == Terminated(lines) + line + ['\n']
  {
    assert (lines + [line])[..|lines|] == lines;
  }

  /// The lines, each with a newline after it but for perhaps the last.
  ghost predicate Spells(lines: seq<Bytes>, bytes: Bytes) {
    bytes == Terminated(lines) || bytes + ['\n'] == Terminated(lines)
  }

  /// The lines spell what has been told, and a line without its newline is
  /// told only at the end of the file.
  ghost predicate TellsFrom(lines: seq<Bytes>, told: Bytes, file: Bytes) {
    Spells(lines, told) && (told != Terminated(lines) ==> told == file)
  }

  lemma OneMoreLineTells(lines: seq<Bytes>, told: Bytes, line: Bytes, ended: bool, file: Bytes)
    requires TellsFrom(lines, told, file)
    requires told != file
    requires ended || told + line == file
    ensures TellsFrom(lines + [line], told + line + (if ended then ['\n'] else []), file)
  {
    TerminatedOneMore(lines, line);
    assert !ended ==> told + line + [] == told + line;
  }

  class FileTail {
    const looks: nat -> Look
    ghost const file: Bytes
    ghost const goneBy: nat
    var position: nat
    var partial: Bytes
    var looked: nat
    ghost var returned: seq<Bytes>
    ghost var told: Bytes
    ghost var broken: bool

    ghost predicate Valid()
      reads this
    {
      && Writes(looks, file, goneBy) && Reading() && '\n' !in partial
      && (!broken ==> TellsFrom(returned, told, file))
    }

    /// Between lines or within one: what has been read is what has been told
    /// and then `partial`, and every look from now on sees at least that much.
    ghost predicate Reading()
      reads this
    {
      && |told| <= position <= |file|
      && file[..|told|] == told && partial == file[|told|..position]
      && (forall n: nat :: n >= looked ==> position <= |looks(n).content|)
    }

    constructor (looks: nat -> Look, ghost file: Bytes, ghost goneBy: nat)
      requires Writes(looks, file, goneBy)
      ensures Valid() && returned == [] && !broken
      ensures this.looks == looks && this.file == file
    {
      this.looks, this.file, this.goneBy := looks, file, goneBy;
      position, partial, looked, returned, told, broken := 0, [], 0, [], [], false;
    }

    /// `read_until`: the bytes from the position on, through a newline if the
    /// file has one there.
    method ReadUntilNewline(look: Look) returns (ok: bool, n: nat)
      requires Valid() && look == looks(looked)
      modifies `position, `partial, `looked
      ensures looked == old(looked) + 1 && position == old(position) + n <= |look.content|
      ensures partial == old(partial) + look.content[old(position)..position]
      ensures ok == look.read.ReadsOn?
      ensures forall i :: old(position) <= i < position - 1 ==> look.content[i] != '\n'
      ensures ok ==> position == |look.content| || (n > 0 && look.content[position - 1] == '\n')
      ensures !ok && n > 0 ==> look.content[position - 1] != '\n'
    {
      var end := NewlineFrom(look.content, position);
      match look.read {
        case ReadsOn =>
          ok := true;
          n := if end < |look.content| then end + 1 - position else end - position;
        case BreaksOff(after) =>
          ok := false;
          n := if after < end - position then after else end - position;
      }
      partial := partial + look.content[position..position + n];
      position := position + n;
      looked := looked + 1;
    }

    /// `std::mem::take` of the partial line, told with or without its newline.
    method TakePartial(ended: bool) returns (line: Bytes)
      requires Reading() && partial != []
      requires !broken ==> TellsFrom(returned, told, file) && (ended || position == |file|)
      requires '\n' !in partial[..|partial| - (if ended then 1 else 0)]
      requires ended ==> partial[|partial| - 1] == '\n'
      modifies `partial, `returned, `told
      ensures Reading() && partial == [] && '\n' !in line
      ensures returned == old(returned) + [line]
      ensures !broken ==> TellsFrom(returned, told, file)
    {
      hide Spells, Terminated;
      line := partial[..|partial| - (if ended then 1 else 0)];
      assert partial == line + (if ended then ['\n'] else []);
      assert told + partial == file[..position];
      if !broken {
        OneMoreLineTells(returned, told, line, ended, file);
        assert told + line + (if ended then ['\n'] else []) == told + partial;
      }
      returned, told := returned + [line], told + partial;
      partial := [];
    }

    /// One pass of the loop's read, on what the next look sees.
    method ReadMore() returns (look: Look, ok: bool, n: nat)
      requires Valid()
      modifies `position, `partial, `looked
      ensures Reading() && looked == old(looked) + 1 && look == looks(looked - 1)
      ensures position == old(position) + n && (ok <==> look.read.ReadsOn?)
      ensures '\n' !in partial || (ok && partial != [] && partial[|partial| - 1] == '\n'
                                  && '\n' !in partial[..|partial| - 1])
      ensures ok && n == 0 ==> position == |look.content|
    {
      hide TellsFrom, Writes, NewlineFrom;
      look := looks(looked);
      ghost var from := position;
      LooksGrow(looks, file, goneBy, looked);
      ok, n := ReadUntilNewline(look);
      assert look.content[from..position] == file[from..position];
      assert file[|told|..position] == file[|told|..from] + file[from..position];
    }

    /// The next complete line, or the last one as it is once the writer is
    /// gone; `None` only once the writer is gone and — unless a read has broken
    /// off with the writer gone — every byte of the file has been returned.
    method NextLine() returns (line: Option<Bytes>)
      requires Valid()
      modifies this
      ensures Valid() && (old(broken) ==> broken)
      ensures match line
              case Some(bytes) => returned == old(returned) + [bytes] && '\n' !in bytes
              case None =>
                && returned == old(returned) && 0 < looked && !looks(looked - 1).writerAlive
                && (!broken ==> told == file && Spells(returned, file))
    {
      hide Spells, Terminated;
      while true
        invariant Valid() && returned == old(returned) && (old(broken) ==> broken)
        decreases if looked < goneBy then goneBy - looked else 0, |file| - position
      {
        var look, ok, n := ReadMore();
        if ok && partial != [] && partial[|partial| - 1] == '\n' {
          var ended := TakePartial(true);
          return Some(ended);
        }
        broken := broken || (!ok && !look.writerAlive);
        if (!ok || n == 0) && !look.writerAlive {
          if partial == [] {
            return None;
          }
          var last := TakePartial(false);
          return Some(last);
        }
      }
    }
  }
}
