/** `FileInputMixin` (src/io.py): the list of channels read from the input file, one per line, and
    the cursor that walks it once. The file is given as its sequence of lines. */
module FileInput {
  import opened Wrappers
  import opened Strings

  /** A character `init_input` strips from a line: newline, carriage return or space. */
  predicate Blank(c: char) { c == '\n' || c == '\r' || c == ' ' }

  /** `l.replace("\n", "").replace("\r", "").replace(" ", "")`: three passes, one per character. */
  function Normalise(line: string): string
  {
    RemoveChars(RemoveChars(RemoveChars(line, {'\n'}), {'\r'}), {' '})
  }

  /** Removing one set of characters and then another removes both at once. */
  lemma {:induction false} RemoveCharsTwice(s: string, a: set<char>, b: set<char>)
    ensures RemoveChars(RemoveChars(s, a), b) == RemoveChars(s, a + b)
  {
    if |s| > 0 {
      RemoveCharsTwice(s[1..], a, b);
      var head := if s[0] in a then "" else [s[0]];
      RemoveCharsAppend(head, RemoveChars(s[1..], a), b);
      if s[0] !in a {
        assert RemoveChars(head, b) == (if s[0] in b then "" else [s[0]]) by {
          assert head[1..] == "";
        }
      }
    }
  }

  /** The three passes are one filter: the line's other characters, in their order, so no blank
      is left. */
  lemma NormaliseFilters(line: string)
    ensures Normalise(line) == RemoveChars(line, {'\n', '\r', ' '})
    ensures forall i :: 0 <= i < |Normalise(line)| ==> !Blank(Normalise(line)[i])
  {
    RemoveCharsTwice(line, {'\n'}, {'\r'});
    RemoveCharsTwice(line, {'\n'} + {'\r'}, {' '});
    assert {'\n'} + {'\r'} + {' '} == {'\n', '\r', ' '};
  }

  /** A line without blanks is kept as it is. */
  lemma {:induction false} NormaliseKeepsClean(line: string)
    requires forall i :: 0 <= i < |line| ==> !Blank(line[i])
    ensures Normalise(line) == line
  {
    NormaliseFilters(line);
    RemoveCharsNone(line, {'\n', '\r', ' '});
  }

  lemma {:induction false} RemoveCharsNone(s: string, cs: set<char>)
    requires forall i :: 0 <= i < |s| ==> s[i] !in cs
    ensures RemoveChars(s, cs) == s
  {
    if |s| > 0 {
      RemoveCharsNone(s[1..], cs);
      assert [s[0]] + s[1..] == s;
    }
  }

  /** Normalising twice is normalising once. */
  lemma NormaliseIdempotent(line: string)
    ensures Normalise(Normalise(line)) == Normalise(line)
  {
    NormaliseFilters(line);
    NormaliseKeepsClean(Normalise(line));
  }

  /** The reader's state: the normalised lines and the index of the next one. */
  class FileReader {
    var entries: seq<string>
    var index: nat

    /** The index never passes the end of the list. */
    predicate Valid()
      reads this
    {
      index <= |entries|
    }

    /** `init_input`: one entry per line, normalised, and the index at the start. */
    constructor (lines: seq<string>)
      ensures |entries| == |lines| && forall i :: 0 <= i < |lines| ==> entries[i] == Normalise(lines[i])
      ensures index == 0 && Valid()
    {
      entries := seq(|lines|, i requires 0 <= i < |lines| => Normalise(lines[i]));
      index := 0;
    }

    /** `round_finished`: every entry has been handed out. */
    predicate RoundFinished()
      reads this
    {
      index == |entries|
    }

    /** `next`: the entry at the index, and the index one further; past the end the lookup raises
        and nothing changes. */
    method Next() returns (r: Result<string>)
      modifies this`index
      ensures old(index) < |entries| ==> r == Ok(entries[old(index)]) && index == old(index) + 1
      ensures old(index) >= |entries| ==> r.Raised? && index == old(index)
      ensures old(Valid()) ==> Valid()
    {
      if index >= |entries| {
        return Raised;
      }
      r := Ok(entries[index]);
      index := index + 1;
    }

    /** The input side of `run`: calls `next` until the round is finished, and returns what it
        handed out, which is the rest of the entries in file order. */
    method Drain() returns (channels: seq<string>)
      requires Valid()
      modifies this`index
      ensures channels == old(entries[index..]) && RoundFinished() && Valid()
    {
      channels := [];
      while !RoundFinished()
        invariant Valid() && entries == old(entries)
        invariant old(index) <= index && channels == entries[old(index)..index]
        decreases |entries| - index
      {
        var next := Next();
        channels := channels + [next.value];
      }
    }
  }

  /** A fresh reader drained hands out exactly the normalised lines, one per line, in order. */
  method ReadAll(lines: seq<string>) returns (channels: seq<string>)
    ensures |channels| == |lines|
    ensures forall i :: 0 <= i < |lines| ==> channels[i] == Normalise(lines[i])
  {
    var reader := new FileReader(lines);
    channels := reader.Drain();
  }
}
