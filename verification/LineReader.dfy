/**
 * The firmware's line reader (firmware/src/pipa_protocol.cpp, firmware/src/pipa_secure_protocol.cpp).
 *
 * `Lines` is the batch specification: take the whole stream at once, drop carriage returns, split at line
 * feeds, and keep the complete lines that are neither empty nor too long. Characters stand for bytes.
 */
module LineReader {
  import opened Prelude

  const MAX_INBOUND_LINE := 12000

  // ----- The specification -----

  function WithoutReturns(s: string): string {
    if s == "" then "" else WithoutReturns(s[..|s| - 1]) + (if s[|s| - 1] == '\r' then "" else [s[|s| - 1]])
  }

  /** The completed lines, each without its line feed. */
  function Completed(s: string): seq<string> {
    if s == "" then []
    else if s[|s| - 1] == '\n' then Completed(s[..|s| - 1]) + [Unfinished(s[..|s| - 1])]
    else Completed(s[..|s| - 1])
  }

  /** What follows the last line feed. */
  function Unfinished(s: string): string {
    if s == "" || s[|s| - 1] == '\n' then "" else Unfinished(s[..|s| - 1]) + [s[|s| - 1]]
  }

  function Kept(lines: seq<string>): seq<string> {
    if lines == [] then []
    else
      var line := lines[|lines| - 1];
      Kept(lines[..|lines| - 1]) + (if 0 < |line| <= MAX_INBOUND_LINE then [line] else [])
  }

  function Lines(stream: string): seq<string> {
    Kept(Completed(WithoutReturns(stream)))
  }

  /** The pieces joined with line feeds. */
  function Joined(lines: seq<string>, last: string): string {
    if lines == [] then last else lines[0] + "\n" + Joined(lines[1..], last)
  }

  /** The split is what it should be: joining the lines again gives the stream, and no line holds a line feed. */
  lemma {:induction false} SplitIsFaithful(s: string)
    ensures Joined(Completed(s), Unfinished(s)) == s
    ensures '\n' !in Unfinished(s) && forall line :: line in Completed(s) ==> '\n' !in line
  {
    if s != "" {
      var rest := s[..|s| - 1];
      SplitIsFaithful(rest);
      if s[|s| - 1] == '\n' {
        JoinedAppend(Completed(rest), Unfinished(rest), "");
      } else {
        JoinedExtend(Completed(rest), Unfinished(rest), s[|s| - 1]);
      }
      assert s == rest + [s[|s| - 1]];
    }
  }

  lemma {:induction false} JoinedAppend(lines: seq<string>, line: string, last: string)
    ensures Joined(lines + [line], last) == Joined(lines, line) + "\n" + last
  {
    if lines != [] {
      assert (lines + [line])[1..] == lines[1..] + [line];
      JoinedAppend(lines[1..], line, last);
    }
  }

  lemma {:induction false} JoinedExtend(lines: seq<string>, last: string, c: char)
    ensures Joined(lines, last + [c]) == Joined(lines, last) + [c]
  {
    if lines != [] {
      JoinedExtend(lines[1..], last, c);
    }
  }

  /** How the stream is cut into reads does not matter to the lines already complete. */
  lemma {:induction false} LinesOnlyGrow(s: string, t: string)
    ensures Lines(s) <= Lines(s + t)
  {
    if t == "" {
      assert s + t == s;
    } else {
      var c := t[|t| - 1];
      assert s + t == s + t[..|t| - 1] + [c];
      LinesOnlyGrow(s, t[..|t| - 1]);
      OneMore(s + t[..|t| - 1], c);
    }
  }

  /** One more character of the stream. */
  lemma OneMore(s: string, c: char)
    ensures var clean := WithoutReturns(s);
            var line := Unfinished(clean);
            && WithoutReturns(s + [c]) == (if c == '\r' then clean else clean + [c])
            && Unfinished(WithoutReturns(s + [c])) == (if c == '\r' then line else if c == '\n' then "" else line + [c])
            && Lines(s + [c]) ==
                 if c == '\n' && 0 < |line| <= 12000 then Lines(s) + [line] else Lines(s)
  {
    var clean := WithoutReturns(s);
    assert (s + [c])[..|s|] == s;
    assert (clean + [c])[..|clean|] == clean;
    if c == '\n' {
      var lines := Completed(clean);
      assert (lines + [Unfinished(clean)])[..|lines|] == lines;
    }
  }

  /** Positions that pick `kept` out of `lines` in order, and no other line that is neither empty nor too long. */
  predicate Picks(lines: seq<string>, kept: seq<string>, origins: seq<nat>) {
    && |origins| == |kept| && (forall i, j :: 0 <= i < j < |origins| ==> origins[i] < origins[j])
    && (forall i :: 0 <= i < |origins| ==> origins[i] < |lines| && kept[i] == lines[origins[i]])
    && forall k :: 0 <= k < |lines| ==> (0 < |lines[k]| <= 12000 <==> k in origins)
  }

  /** The lines kept are the completed ones that are neither empty nor too long, in their order. */
  lemma {:induction false} KeptExactly(lines: seq<string>) returns (origins: seq<nat>)
    ensures Picks(lines, Kept(lines), origins)
  {
    hide Picks;
    if lines == [] {
      origins := [];
      PicksNone();
    } else {
      var n := |lines| - 1;
      origins := KeptExactly(lines[..n]);
      PicksMore(lines[..n], Kept(lines[..n]), origins, lines[n]);
      assert lines[..n] + [lines[n]] == lines;
      if 0 < |lines[n]| <= MAX_INBOUND_LINE {
        origins := origins + [n];
      } else {
        assert Kept(lines) == Kept(lines[..n]);
      }
    }
  }

  lemma PicksNone()
    ensures Picks([], Kept([]), [])
  {
  }

  lemma PicksMore(lines: seq<string>, kept: seq<string>, origins: seq<nat>, line: string)
    requires Picks(lines, kept, origins)
    ensures if 0 < |line| <= 12000 then Picks(lines + [line], kept + [line], origins + [|lines|])
            else Picks(lines + [line], kept, origins)
  {
    var n := |lines|;
    assert forall k :: k in origins + [n] <==> k in origins || k == n;
    assert forall k :: k in origins ==> k < n;
  }

  // ----- The reader -----

  class Reader {
    var inboundLine: string
    var droppingOversizedLine: bool
    /** Every line handed to `handleLine`, in order. */
    var handled: seq<string>
    /** Every byte read so far, over all polls. */
    ghost var stream: string

    ghost predicate Valid()
      reads this
    {
      var line := Unfinished(WithoutReturns(stream));
      && handled == Lines(stream)
      && droppingOversizedLine == (|line| > MAX_INBOUND_LINE)
      && inboundLine == if droppingOversizedLine then "" else line
    }

    constructor ()
      ensures Valid() && stream == "" && handled == []
    {
      inboundLine, droppingOversizedLine, handled, stream := "", false, [], "";
    }

    /** One poll: whatever the transport has available. */
    method ReadTransport(available: string)
      requires Valid()
      modifies this
      ensures Valid() && stream == old(stream) + available
      ensures handled == Lines(old(stream) + available) && old(handled) <= handled
    {
      hide Lines, Unfinished, WithoutReturns;
      LinesOnlyGrow(stream, available);
      for index := 0 to |available|
        invariant Valid() && stream == old(stream) + available[..index]
      {
        ReadCharacter(available[index]);
        assert available[..index] + [available[index]] == available[..index + 1];
      }
      assert available[..|available|] == available;
    }

    method ReadCharacter(character: char)
      requires Valid()
      modifies this
      ensures Valid() && stream == old(stream) + [character]
    {
      hide Lines, Unfinished, WithoutReturns;
      OneMore(stream, character);
      stream := stream + [character];
      if character == '\r' {
        return;
      }
      if character == '\n' {
        if !droppingOversizedLine && inboundLine != "" {
          handled := handled + [inboundLine];
        }
        inboundLine := "";
        droppingOversizedLine := false;
        return;
      }
      if droppingOversizedLine {
        return;
      }
      if |inboundLine| >= MAX_INBOUND_LINE {
        inboundLine := "";
        droppingOversizedLine := true;
        return;
      }
      inboundLine := inboundLine + [character];
    }
  }
}
