/**
 * The Python front end of shenidam.py: the parser of the MESSAGE: lines the
 * command-line tool writes (_parse_event and the callback filter of
 * Shenidam.__init__), the command Shenidam.__call__ builds, the cancelable
 * progress notifier, the progress updates and remix defaults of the file
 * processor, and the checks check_model makes before any processing.
 */
module Frontend {
  import opened Wrappers
  import opened Strings
  import Cli
  import Patterns

  // ---------------------------------------------------------------------------
  // Event lines

  /** A parsed event: Python's dict from stripped keys to stripped values or None. */
  type Event = map<string, Option<string>>

  /** Every key, and every value that is not None, has no white space at either end. */
  predicate StrippedEvent(e: Event)
  {
    forall k :: k in e ==> NoEdgeSpace(k) && (e[k].Some? ==> NoEdgeSpace(e[k].value))
  }

  /**
   * One ';'-separated piece of a line, stripped and split at its first ':':
   * the stripped key maps to the stripped value, or to None without a ':'.
   * A later piece with the same key overwrites an earlier one.
   */
  function AddPiece(res: Event, piece: string): (r: Event)
    ensures res.Keys <= r.Keys && |r.Keys| <= |res.Keys| + 1
    ensures forall k :: k in res && k != Strip(SplitOnce(Strip(piece), ':')[0]) ==> r[k] == res[k]
    ensures StrippedEvent(res) ==> StrippedEvent(r)
    ensures !Contains(Strip(piece), ':') ==> r == res[Strip(piece) := None]
  {
    StripNoEdgeSpace(Strip(piece));
    var parts := SplitOnce(Strip(piece), ':');
    if |parts| == 1 then res[Strip(parts[0]) := None]
    else res[Strip(parts[0]) := Some(Strip(parts[1]))]
  }

  /** The pieces added one after the other, from the first. */
  function EventFields(pieces: seq<string>): (e: Event)
    ensures StrippedEvent(e) && |e.Keys| <= |pieces|
    decreases |pieces|
  {
    if |pieces| == 0 then map[] else AddPiece(EventFields(pieces[..|pieces| - 1]), pieces[|pieces| - 1])
  }

  /** _parse_event(line) (shenidam.py:98-109). */
  function ParsedEvent(line: string): (e: Event)
    ensures StrippedEvent(e) && 1 <= |e.Keys| <= |Split(line, ';')|
  {
    EventFields(Split(line, ';'))
  }

  /** _parse_event, with the loop that fills the dictionary. */
  method ParseEvent(line: string) returns (res: Event)
    ensures res == ParsedEvent(line)
  {
    var pieces := Split(line, ';');
    res := map[];
    var j := 0;
    while j < |pieces|
      invariant 0 <= j <= |pieces|
      invariant res == EventFields(pieces[..j])
    {
      EventFieldsSnoc(pieces, j);
      res := StorePiece(res, pieces[j]);
      j := j + 1;
    }
    assert pieces[..j] == pieces;
  }

  /** The body of the loop of _parse_event: one piece stripped, split and stored. */
  method StorePiece(res: Event, piece: string) returns (res': Event)
    ensures res' == AddPiece(res, piece)
  {
    var x := Strip(piece);
    var parts := SplitOnce(x, ':');
    if |parts| == 1 {
      res' := res[Strip(parts[0]) := None];
    } else {
      res' := res[Strip(parts[0]) := Some(Strip(parts[1]))];
    }
  }

  /** The callback filter of Shenidam.__init__ (shenidam.py:116-118): only MESSAGE: lines are parsed and passed on. */
  function Delivered(line: string): (r: Option<Event>)
    ensures r.Some? <==> StartsWith(line, "MESSAGE:")
    ensures r.Some? ==> "MESSAGE" in r.value
  {
    if StartsWith(line, "MESSAGE:") then
      MessageKeyPresent(line);
      Some(ParsedEvent(line))
    else None
  }

  /** A line starting with "MESSAGE:" always parses to an event with a "MESSAGE" key. */
  lemma MessageKeyPresent(line: string)
    requires StartsWith(line, "MESSAGE:")
    ensures "MESSAGE" in ParsedEvent(line)
  {
    var pieces := Split(line, ';');
    FirstPieceKeepsPrefix(line);
    MessagePieceKey(pieces[0]);
    KeyStays(pieces, "MESSAGE");
  }

  /** The first piece of a line starting with "MESSAGE:" starts with it too, as the prefix holds no ';'. */
  lemma FirstPieceKeepsPrefix(line: string)
    requires StartsWith(line, "MESSAGE:")
    ensures StartsWith(Split(line, ';')[0], "MESSAGE:")
  {
    if Contains(line, ';') {
      var k := FirstIndex(line, ';');
      assert Split(line, ';')[0] == line[..k];
      assert k >= 8;
    }
  }

  /** A piece starting with "MESSAGE:" adds the key "MESSAGE". */
  lemma MessagePieceKey(piece: string)
    requires StartsWith(piece, "MESSAGE:")
    ensures "MESSAGE" in AddPiece(map[], piece)
  {
    var stripped := Strip(piece);
    StripKeepsMessagePrefix(piece);
    assert stripped == "MESSAGE" + [':'] + stripped[8..];
    MessageKeyPlain();
    SplitOnceAt("MESSAGE", stripped[8..], ':');
    StripNoEdgeSpace("MESSAGE");
  }

  /** The key "MESSAGE" has no ':' and no edge whitespace. */
  lemma MessageKeyPlain()
    ensures !Contains("MESSAGE", ':') && NoEdgeSpace("MESSAGE")
  {
    var m := "MESSAGE";
    assert m == ['M', 'E', 'S', 'S', 'A', 'G', 'E'];
    forall k | 0 <= k < |m|
      ensures m[k] != ':'
    {
      assert 'A' <= m[k] <= 'Z';
    }
  }

  lemma StripKeepsMessagePrefix(piece: string)
    requires StartsWith(piece, "MESSAGE:")
    ensures StartsWith(Strip(piece), "MESSAGE:")
  {
    assert StripLeft(piece) == piece by {
      assert !IsSpace(piece[0]);
    }
    StripRightFacts(piece);
    assert |StripRight(piece)| >= 8 by {
      assert !IsSpace(piece[7]);
    }
    assert StripRight(piece)[..8] == piece[..8];
  }

  /** A key the first piece adds stays in the event: later pieces only add or overwrite. */
  lemma {:induction false} KeyStays(pieces: seq<string>, key: string)
    requires |pieces| > 0 && key in AddPiece(map[], pieces[0])
    ensures key in EventFields(pieces)
    decreases |pieces|
  {
    var front := pieces[..|pieces| - 1];
    if |pieces| == 1 {
      assert front == [];
    } else {
      assert front[0] == pieces[0];
      KeyStays(front, key);
      AddPieceKeeps(EventFields(front), pieces[|pieces| - 1], key);
    }
    assert EventFields(pieces) == AddPiece(EventFields(front), pieces[|pieces| - 1]);
  }

  lemma AddPieceKeeps(res: Event, piece: string, key: string)
    requires key in res
    ensures key in AddPiece(res, piece)
  {
  }

  lemma EventFieldsAppend(pieces: seq<string>, piece: string)
    ensures EventFields(pieces + [piece]) == AddPiece(EventFields(pieces), piece)
  {
    assert (pieces + [piece])[..|pieces|] == pieces;
  }

  lemma EventFieldsSnoc(pieces: seq<string>, j: nat)
    requires j < |pieces|
    ensures EventFields(pieces[..j + 1]) == AddPiece(EventFields(pieces[..j]), pieces[j])
  {
    assert pieces[..j + 1][..j] == pieces[..j];
  }

  /** The newline after the last ';' is the empty key without a value. */
  lemma AddNewlinePiece(res: Event)
    ensures AddPiece(res, "\n") == res["" := None]
  {
    assert StripLeft("\n") == "";
  }

  // ---------------------------------------------------------------------------
  // Round trip with send_message

  /** The "key:value" pieces of the entries send_message writes. */
  function EntryPieces(kv: seq<(string, string)>): (pieces: seq<string>)
    ensures |pieces| == |kv|
    ensures forall i :: 0 <= i < |kv| ==> pieces[i] == kv[i].0 + ":" + kv[i].1
    decreases |kv|
  {
    if |kv| == 0 then [] else EntryPieces(kv[..|kv| - 1]) + [kv[|kv| - 1].0 + ":" + kv[|kv| - 1].1]
  }

  /** An entry that _parse_event reads back as written: no separator inside, no edge whitespace. */
  predicate ReadableEntry(entry: (string, string))
  {
    && !Contains(entry.0, ':') && !Contains(entry.0, ';') && !Contains(entry.1, ';')
    && NoEdgeSpace(entry.0) && NoEdgeSpace(entry.1)
  }

  /** A piece that reads back as its entry: no ':' in the key, no edge whitespace. */
  predicate ReadablePiece(entry: (string, string))
  {
    !Contains(entry.0, ':') && NoEdgeSpace(entry.0) && NoEdgeSpace(entry.1)
  }

  /** The dictionary m updated with the entries, the last write winning. */
  function Updates(m: Event, kv: seq<(string, string)>): Event
    decreases |kv|
  {
    if |kv| == 0 then m else Updates(m, kv[..|kv| - 1])[kv[|kv| - 1].0 := Some(kv[|kv| - 1].1)]
  }

  /** The line send_message writes is the join of its pieces with ';', the newline being the last piece. */
  lemma {:induction false} MessageLineJoin(event: string, kv: seq<(string, string)>)
    ensures Join(["MESSAGE:" + event] + EntryPieces(kv), ';') + ";" == "MESSAGE:" + event + ";" + Cli.Entries(kv)
    decreases |kv|
  {
    if |kv| > 0 {
      var front := kv[..|kv| - 1];
      var last := kv[|kv| - 1];
      MessageLineJoin(event, front);
      assert ["MESSAGE:" + event] + EntryPieces(kv) == (["MESSAGE:" + event] + EntryPieces(front)) + [last.0 + ":" + last.1];
      JoinSnoc(["MESSAGE:" + event] + EntryPieces(front), last.0 + ":" + last.1, ';');
    }
  }

  /** Reading one well-formed piece adds its entry. */
  lemma AddEntryPiece(res: Event, entry: (string, string))
    requires ReadablePiece(entry)
    ensures AddPiece(res, entry.0 + ":" + entry.1) == res[entry.0 := Some(entry.1)]
  {
    var piece := entry.0 + ":" + entry.1;
    assert NoEdgeSpace(piece);
    StripNoEdgeSpace(piece);
    SplitOnceAt(entry.0, entry.1, ':');
    StripNoEdgeSpace(entry.0);
    StripNoEdgeSpace(entry.1);
  }

  /**
   * A piece "key:value" whose key holds no ':' maps the stripped key to the
   * stripped value, whatever white space surrounds either; the value may
   * hold further ':'.
   */
  lemma AddKeyValuePiece(res: Event, key: string, value: string)
    requires !Contains(key, ':')
    ensures AddPiece(res, key + ":" + value) == res[Strip(key) := Some(Strip(value))]
  {
    var piece := key + ":" + value;
    var left := StripLeft(key);
    var right := StripRight(value);
    assert piece == key + (":" + value);
    StripLeftAppend(key, ":" + value);
    assert StripLeft(piece) == (left + ":") + value;
    StripRightPrepend(left + ":", value);
    assert Strip(piece) == left + [':'] + right;
    StripLeftFacts(key);
    assert !Contains(left, ':') by {
      forall k | 0 <= k < |left|
        ensures left[k] != ':'
      {
        assert left[k] == key[|key| - |left| + k];
      }
    }
    SplitOnceAt(left, right, ':');
    StripAfterStripLeft(key);
    StripAfterStripRight(value);
  }

  /** Reading the event piece and the entry pieces gives the event and the entries. */
  lemma {:induction false} EventFieldsOfEntries(event: string, kv: seq<(string, string)>)
    requires NoEdgeSpace(event)
    requires forall i :: 0 <= i < |kv| ==> ReadableEntry(kv[i])
    ensures EventFields(["MESSAGE:" + event] + EntryPieces(kv)) == Updates(map["MESSAGE" := Some(event)], kv)
    decreases |kv|
  {
    if |kv| == 0 {
      assert ["MESSAGE:" + event] + EntryPieces(kv) == [] + ["MESSAGE:" + event];
      EventFieldsAppend([], "MESSAGE:" + event);
      MessageKeyPlain();
      assert "MESSAGE" + ":" + event == "MESSAGE:" + event;
      AddEntryPiece(map[], ("MESSAGE", event));
    } else {
      var front := kv[..|kv| - 1];
      var last := kv[|kv| - 1];
      EventFieldsOfEntries(event, front);
      var before := ["MESSAGE:" + event] + EntryPieces(front);
      assert ["MESSAGE:" + event] + EntryPieces(kv) == before + [last.0 + ":" + last.1];
      EventFieldsAppend(before, last.0 + ":" + last.1);
      AddEntryPiece(EventFields(before), last);
    }
  }

  /**
   * The round trip between send_message (shenidam_main.cpp:109-114) and
   * _parse_event: the line parses to MESSAGE mapped to the event and every
   * key to its value, plus the empty key mapped to None for the newline after
   * the last ';'.
   */
  lemma MessageRoundTrip(event: string, kv: seq<(string, string)>)
    requires !Contains(event, ';') && NoEdgeSpace(event)
    requires forall i :: 0 <= i < |kv| ==> ReadableEntry(kv[i])
    ensures Delivered(Cli.MessageLine(event, kv)) == Some(Updates(map["MESSAGE" := Some(event)], kv)["" := None])
  {
    var before := ["MESSAGE:" + event] + EntryPieces(kv);
    MessageLineSplit(event, kv);
    EventFieldsOfEntries(event, kv);
    EventFieldsAppend(before, "\n");
    AddNewlinePiece(EventFields(before));
  }

  /** The line send_message writes splits at ';' into the event piece, the entry pieces and the newline. */
  lemma MessageLineSplit(event: string, kv: seq<(string, string)>)
    requires !Contains(event, ';')
    requires forall i :: 0 <= i < |kv| ==> ReadableEntry(kv[i])
    ensures Split(Cli.MessageLine(event, kv), ';') == ["MESSAGE:" + event] + EntryPieces(kv) + ["\n"]
  {
    var before := ["MESSAGE:" + event] + EntryPieces(kv);
    var pieces := before + ["\n"];
    MessageLineJoin(event, kv);
    JoinSnoc(before, "\n", ';');
    assert Join(pieces, ';') == Cli.MessageLine(event, kv);
    PiecesHaveNoSeparator(event, kv);
    SplitJoin(pieces, ';');
  }

  lemma PiecesHaveNoSeparator(event: string, kv: seq<(string, string)>)
    requires !Contains(event, ';')
    requires forall i :: 0 <= i < |kv| ==> ReadableEntry(kv[i])
    ensures forall k :: 0 <= k < |kv| + 2 ==> !Contains((["MESSAGE:" + event] + EntryPieces(kv) + ["\n"])[k], ';')
  {
    var pieces := ["MESSAGE:" + event] + EntryPieces(kv) + ["\n"];
    forall k | 0 <= k < |pieces|
      ensures !Contains(pieces[k], ';')
    {
      if k == 0 {
        NoSeparatorInConcat("MESSAGE:", event, ';');
      } else if k < |pieces| - 1 {
        assert pieces[k] == kv[k - 1].0 + ":" + kv[k - 1].1;
        NoSeparatorInConcat(kv[k - 1].0, ":", ';');
        NoSeparatorInConcat(kv[k - 1].0 + ":", kv[k - 1].1, ';');
      }
    }
  }

  lemma NoSeparatorInConcat(a: string, b: string, c: char)
    requires !Contains(a, c) && !Contains(b, c)
    ensures !Contains(a + b, c)
  {
  }

  /** Keys sent in ascending order are distinct, so each one reads back as its own value. */
  lemma ReadBackEntry(event: string, kv: Cli.StringMap, i: nat)
    requires !Contains(event, ';') && NoEdgeSpace(event)
    requires forall j :: 0 <= j < |kv| ==> ReadableEntry(kv[j])
    requires i < |kv| && kv[i].0 != ""
    ensures kv[i].0 in ParsedEvent(Cli.MessageLine(event, kv))
    ensures ParsedEvent(Cli.MessageLine(event, kv))[kv[i].0] == Some(kv[i].1)
  {
    MessageRoundTrip(event, kv);
    LastWriteWins(map["MESSAGE" := Some(event)], kv, i);
  }

  lemma {:induction false} LastWriteWins(m: Event, kv: Cli.StringMap, i: nat)
    requires i < |kv|
    ensures kv[i].0 in Updates(m, kv) && Updates(m, kv)[kv[i].0] == Some(kv[i].1)
    decreases |kv|
  {
    if i < |kv| - 1 {
      var front: Cli.StringMap := kv[..|kv| - 1];
      LastWriteWins(m, front, i);
      LexLessDistinct(kv[i].0, kv[|kv| - 1].0);
    }
  }

  lemma {:induction false} LexLessDistinct(a: string, b: string)
    requires Cli.LexLess(a, b)
    ensures a != b
    decreases |a|
  {
    if |a| > 0 && a[0] == b[0] {
      LexLessDistinct(a[1..], b[1..]);
    }
  }

  // ---------------------------------------------------------------------------
  // The command line of Shenidam.__call__

  /** What Shenidam.__call__ produces before it runs anything: a ValueError or the command. */
  datatype CommandResult = ValueError(message: string) | Command(line: string)

  /** Each name in double quotes followed by a space, in order. */
  function QuotedNames(names: seq<string>): (r: string)
    decreases |names|
  {
    if |names| == 0 then "" else QuotedNames(names[..|names| - 1]) + "\"" + names[|names| - 1] + "\" "
  }

  /** The args part: "-i " and the quoted inputs, then "-o " and the quoted outputs when there are any. */
  function TrackArguments(inputs: seq<string>, outputs: seq<string>): string
  {
    "-i " + QuotedNames(inputs) + (if |outputs| > 0 then "-o " + QuotedNames(outputs) else "")
  }

  /** The command Shenidam.__call__ formats (shenidam.py:124-136). */
  function Call(executable: string, extraArgs: string, base: string, inputs: seq<string>, outputs: seq<string>): (r: CommandResult)
    ensures r.ValueError? <==> |inputs| == 0 || (|outputs| > 0 && |outputs| != |inputs|)
    ensures r.Command? ==> StartsWith(r.line, "\"" + executable + "\" -m ")
  {
    if |inputs| == 0 then ValueError("No input tracks")
    else if |outputs| > 0 && |inputs| != |outputs| then ValueError("Invalid number of input tracks")
    else
      var head := "\"" + executable + "\" -m ";
      var line := head + extraArgs + " -n " + NatToString(|inputs|) + " -b \"" + base + "\" " + TrackArguments(inputs, outputs);
      assert line[..|head|] == head;
      Command(line)
  }

  /** Shenidam.__call__ up to running the command: the checks, then the += loops. */
  method BuildCommand(executable: string, extraArgs: string, base: string, inputs: seq<string>, outputs: seq<string>)
    returns (r: CommandResult)
    ensures r == Call(executable, extraArgs, base, inputs, outputs)
  {
    if |inputs| <= 0 {
      return ValueError("No input tracks");
    }
    if |outputs| > 0 && |inputs| != |outputs| {
      return ValueError("Invalid number of input tracks");
    }
    var args := "-i ";
    args := AppendQuoted(args, inputs);
    if |outputs| > 0 {
      args := args + "-o ";
      args := AppendQuoted(args, outputs);
    }
    r := Command("\"" + executable + "\" -m " + extraArgs + " -n " + NatToString(|inputs|) + " -b \"" + base + "\" " + args);
  }

  /** The loop for x in names: args += "\"{0}\" ".format(x). */
  method AppendQuoted(args: string, names: seq<string>) returns (r: string)
    ensures r == args + QuotedNames(names)
  {
    r := args;
    var j := 0;
    while j < |names|
      invariant 0 <= j <= |names|
      invariant r == args + QuotedNames(names[..j])
    {
      assert names[..j + 1][..j] == names[..j];
      r := r + "\"" + names[j] + "\" ";
      j := j + 1;
    }
    assert names[..j] == names;
  }

  /**
   * The argument vector the command stands for once the shell has removed the
   * quotes, without extra arguments.
   */
  function CommandArgv(executable: string, base: string, inputs: seq<string>, outputs: seq<string>): seq<string>
  {
    [executable, "-m", "-n", NatToString(|inputs|), "-b", base, "-i"] + inputs
      + (if |outputs| > 0 then ["-o"] + outputs else [])
  }

  /** The options the command line tool ends up with for that argument vector. */
  function CommandOptions(base: string, inputs: seq<string>, outputs: seq<string>): Cli.Config
  {
    Cli.Initial.(sendMessages := true, numFiles := |inputs|, baseFilename := base, baseSet := true,
                 inTracks := inputs, outTracks := outputs)
  }

  /**
   * The command Shenidam.__call__ builds is one parse_options accepts: it
   * reads the track count, the base, the inputs and the outputs back, and
   * main runs the alignment with messages on.
   */
  lemma CommandIsAccepted(executable: string, base: string, inputs: seq<string>, outputs: seq<string>, toReal: string -> real)
    requires 0 < |inputs| < 0x8000_0000
    requires |outputs| == 0 || |outputs| == |inputs|
    ensures Cli.Parse(CommandArgv(executable, base, inputs, outputs), toReal) == Cli.Parsed(0, CommandOptions(base, inputs, outputs))
    ensures Cli.Decide(Cli.Parse(CommandArgv(executable, base, inputs, outputs), toReal)) ==
      Cli.RunProcess(CommandOptions(base, inputs, outputs))
  {
    var argv := CommandArgv(executable, base, inputs, outputs);
    var n := |inputs|;
    var c4 := CommandOptions(base, inputs, []);
    CommandHeadSteps(executable, base, inputs, outputs, toReal);
    if |outputs| > 0 {
      assert argv[7 + n] == "-o" && argv[8 + n..8 + 2 * n] == outputs;
      NamesStepReads(c4, argv, 7 + n, outputs, true, toReal);
      assert Cli.ParseFrom(c4.(outTracks := outputs), argv, 8 + 2 * n, toReal) == Cli.Parsed(0, c4.(outTracks := outputs));
    } else {
      assert Cli.ParseFrom(c4, argv, 7 + n, toReal) == Cli.Parsed(0, c4);
    }
  }

  /** The options before the output names: -m, -n with the count, -b with the base, -i with the inputs. */
  lemma CommandHeadSteps(executable: string, base: string, inputs: seq<string>, outputs: seq<string>, toReal: string -> real)
    requires 0 < |inputs| < 0x8000_0000
    ensures 7 + |inputs| <= |CommandArgv(executable, base, inputs, outputs)|
    ensures Cli.Parse(CommandArgv(executable, base, inputs, outputs), toReal) ==
      Cli.ParseFrom(CommandOptions(base, inputs, []), CommandArgv(executable, base, inputs, outputs), 7 + |inputs|, toReal)
  {
    var argv := CommandArgv(executable, base, inputs, outputs);
    var n := |inputs|;
    var c2 := Cli.Initial.(sendMessages := true, numFiles := n);
    MessagesAndCountSteps(executable, base, inputs, outputs, toReal);
    var c3 := c2.(baseFilename := base, baseSet := true);
    var c4 := c3.(inTracks := inputs);
    assert c4 == CommandOptions(base, inputs, []);
    assert argv[4] == "-b" && argv[5] == base && argv[6] == "-i";
    assert argv[7..7 + n] == inputs;
    BaseStep(c2, argv, 4, toReal);
    assert Cli.ParseFrom(c2, argv, 4, toReal) == Cli.ParseFrom(c3, argv, 6, toReal);
    NamesStepReads(c3, argv, 6, inputs, false, toReal);
    assert Cli.ParseFrom(c3, argv, 6, toReal) == Cli.ParseFrom(c4, argv, 7 + n, toReal);
  }

  /** -i or -o followed by exactly the announced number of names stores those names. */
  lemma NamesStepReads(c: Cli.Config, argv: seq<string>, i: nat, names: seq<string>, output: bool, toReal: string -> real)
    requires i < |argv| && argv[i] == (if output then "-o" else "-i")
    requires c.numFiles == |names| > 0 && i + 1 + |names| <= |argv| && argv[i + 1..i + 1 + |names|] == names
    requires (if output then c.outTracks else c.inTracks) == [] && !(output && c.defaultOutput)
    ensures Cli.ParseStep(c, argv, i, toReal) ==
      Cli.Continue(if output then c.(outTracks := names) else c.(inTracks := names), i + 1 + |names|)
  {
    KindOfCommandOptions();
    var kind := Cli.KindOf(argv[i]);
    assert kind == (if output then Cli.Output else Cli.Input);
    assert !Cli.IsFlag(kind);
    assert Cli.ParseStep(c, argv, i, toReal) == Cli.NamesStep(c, argv, i + 1, output);
    NamesStepStores(c, argv, i + 1, names, output);
  }

  lemma NamesStepStores(c: Cli.Config, argv: seq<string>, i: nat, names: seq<string>, output: bool)
    requires c.numFiles == |names| > 0 && i + |names| <= |argv| && argv[i..i + |names|] == names
    requires (if output then c.outTracks else c.inTracks) == [] && !(output && c.defaultOutput)
    ensures Cli.NamesStep(c, argv, i, output) ==
      Cli.Continue(if output then c.(outTracks := names) else c.(inTracks := names), i + |names|)
  {
    assert Cli.TrackCount(c.numFiles) == |names|;
    assert Cli.Available(argv, i, |names|) == names;
    assert [] + names == names;
  }

  /** -m sets the messages on, and -n reads the track count back. */
  lemma MessagesAndCountSteps(executable: string, base: string, inputs: seq<string>, outputs: seq<string>, toReal: string -> real)
    requires 0 < |inputs| < 0x8000_0000
    ensures Cli.Parse(CommandArgv(executable, base, inputs, outputs), toReal) ==
      Cli.ParseFrom(Cli.Initial.(sendMessages := true, numFiles := |inputs|), CommandArgv(executable, base, inputs, outputs), 4, toReal)
  {
    var argv := CommandArgv(executable, base, inputs, outputs);
    var n := |inputs|;
    var c1 := Cli.Initial.(sendMessages := true);
    var c2 := c1.(numFiles := n);
    assert argv[1] == "-m" && argv[2] == "-n" && argv[3] == NatToString(n);
    MessagesStep(Cli.Initial, argv, 1, toReal);
    assert Cli.ParseFrom(Cli.Initial, argv, 1, toReal) == Cli.ParseFrom(c1, argv, 2, toReal);
    CountStep(c1, argv, 2, n, toReal);
    assert Cli.ParseFrom(c1, argv, 2, toReal) == Cli.ParseFrom(c2, argv, 4, toReal);
  }

  lemma BaseStep(c: Cli.Config, argv: seq<string>, i: nat, toReal: string -> real)
    requires i + 1 < |argv| && argv[i] == "-b" && !c.baseSet
    ensures Cli.ParseStep(c, argv, i, toReal) == Cli.Continue(c.(baseFilename := argv[i + 1], baseSet := true), i + 2)
  {
    KindOfCommandOptions();
  }

  lemma MessagesStep(c: Cli.Config, argv: seq<string>, i: nat, toReal: string -> real)
    requires i < |argv| && argv[i] == "-m"
    ensures Cli.ParseStep(c, argv, i, toReal) == Cli.Continue(c.(sendMessages := true), i + 1)
  {
    KindOfCommandOptions();
  }

  lemma CountStep(c: Cli.Config, argv: seq<string>, i: nat, n: nat, toReal: string -> real)
    requires i + 1 < |argv| && argv[i] == "-n" && argv[i + 1] == NatToString(n) && 0 < n < 0x8000_0000
    ensures Cli.ParseStep(c, argv, i, toReal) == Cli.Continue(c.(numFiles := n), i + 2)
  {
    KindOfCommandOptions();
    TrackCountReadBack(n);
  }

  lemma KindOfCommandOptions()
    ensures Cli.KindOf("-m") == Cli.SendMessages && Cli.KindOf("-n") == Cli.NumberTracks
    ensures Cli.KindOf("-b") == Cli.Base && Cli.KindOf("-i") == Cli.Input && Cli.KindOf("-o") == Cli.Output
  {
    KindOfFirstOptions();
  }

  lemma KindOfFirstOptions()
    ensures Cli.KindOf("-n") == Cli.NumberTracks && Cli.KindOf("-b") == Cli.Base && Cli.KindOf("-i") == Cli.Input
  {
  }

  /** str(n) read back by strtol and the conversion to int gives n. */
  lemma TrackCountReadBack(n: nat)
    requires n < 0x8000_0000
    ensures ToInt32(StrToL(NatToString(n))) == n
  {
    StrToLNatToString(n);
  }

  // ---------------------------------------------------------------------------
  // Progress

  /** What the notifier puts on its queue: ("level", x) or ("text", s). */
  datatype Notice = Level(x: real) | Text(text: string)

  /** The cap "if x > 1: x = 1" of both updates. */
  function Capped(x: real): (r: real)
    ensures r <= 1.0 && r <= x
    ensures x <= 1.0 ==> r == x
  {
    if x > 1.0 then 1.0 else x
  }

  /** The level update_major reports: the fraction of major steps begun. */
  function MajorProgress(majorLevel: int, numMajorLevels: int): (x: real)
    requires numMajorLevels != 0
    ensures x <= 1.0
    ensures 0 <= majorLevel <= numMajorLevels ==> x == majorLevel as real / numMajorLevels as real
    ensures 0 < numMajorLevels <= majorLevel ==> x == 1.0
    ensures 0 <= majorLevel && 0 < numMajorLevels ==> 0.0 <= x
  {
    Capped(majorLevel as real / numMajorLevels as real)
  }

  /** The level update_minor reports: the major fraction plus the minor share of one major step. */
  function MinorProgress(majorLevel: int, minorLevel: int, numMajorLevels: int, numMinorLevels: int, streak: real): (x: real)
    requires numMajorLevels != 0
    ensures x <= 1.0
    ensures numMinorLevels == 0 ==> x == MajorProgress(majorLevel, numMajorLevels)
    ensures 0 <= minorLevel && 0 < numMinorLevels && 0.0 <= streak ==> MajorProgress(majorLevel, numMajorLevels) <= x
  {
    if numMinorLevels != 0 then
      Capped(majorLevel as real / numMajorLevels as real + (minorLevel as real / numMinorLevels as real) * streak)
    else Capped(majorLevel as real / numMajorLevels as real)
  }

  /**
   * While the minor steps do not overrun their count, the level update_minor
   * reports stays between the start of the current major step and the start
   * of the next one.
   */
  lemma MinorProgressWithinMajorStep(majorLevel: nat, minorLevel: nat, numMajorLevels: int, numMinorLevels: int)
    requires numMajorLevels > 0 && 0 < numMinorLevels && minorLevel <= numMinorLevels
    ensures MajorProgress(majorLevel, numMajorLevels)
      <= MinorProgress(majorLevel, minorLevel, numMajorLevels, numMinorLevels, 1.0 / numMajorLevels as real)
      <= MajorProgress(majorLevel + 1, numMajorLevels)
  {
    var share := minorLevel as real / numMinorLevels as real;
    ShareIsFraction(minorLevel, numMinorLevels);
    StepWithinBounds(majorLevel, share, numMajorLevels);
  }

  lemma ShareIsFraction(part: nat, whole: int)
    requires 0 < whole && part <= whole
    ensures 0.0 <= part as real / whole as real <= 1.0
  {
    var share := part as real / whole as real;
    assert share * whole as real == part as real;
  }

  lemma StepWithinBounds(majorLevel: nat, share: real, numMajorLevels: int)
    requires numMajorLevels > 0 && 0.0 <= share <= 1.0
    ensures majorLevel as real / numMajorLevels as real
      <= majorLevel as real / numMajorLevels as real + share * (1.0 / numMajorLevels as real)
      <= (majorLevel + 1) as real / numMajorLevels as real
  {
    var n := numMajorLevels as real;
    assert share * (1.0 / n) == share / n;
    assert share / n <= 1.0 / n;
    assert majorLevel as real / n + 1.0 / n == (majorLevel + 1) as real / n;
  }

  /** The notifier the file processor reports to (CancelableProgressNotifier, shenidam.py:201-245). */
  class CancelableProgressNotifier {
    /** The messages put on the queue, oldest first. */
    var queue: seq<Notice>
    var canceled: bool
    var majorLabel: string
    var majorLevel: int
    var minorLevel: int
    var numMajorLevels: int
    var numMinorLevels: int
    var minorLevelStreak: real
    var done: bool

    /** The division by the number of major levels is defined, and no level put on the queue exceeds 1. */
    ghost predicate Valid()
      reads this
    {
      && numMajorLevels != 0
      && minorLevelStreak == 1.0 / numMajorLevels as real
      && forall k :: 0 <= k < |queue| ==> queue[k].Level? ==> queue[k].x <= 1.0
    }

    /** __init__ (shenidam.py:202-211); 1.0/num_major_levels needs a non-zero count. */
    constructor (numMajorLevels: int)
      requires numMajorLevels != 0
      ensures Valid() && queue == [] && !canceled && !done
      ensures majorLabel == "" && majorLevel == -1 && minorLevel == 0
      ensures this.numMajorLevels == numMajorLevels && numMinorLevels == 0
    {
      queue := [];
      canceled := false;
      majorLabel := "";
      majorLevel := -1;
      minorLevel := 0;
      this.numMajorLevels := numMajorLevels;
      numMinorLevels := 0;
      minorLevelStreak := 1.0 / numMajorLevels as real;
      done := false;
    }

    /**
     * update_major (shenidam.py:212-222): raises CanceledException (raised)
     * before touching anything when canceled and asked to; otherwise starts
     * the next major step with minorLevels + 1 minor steps and reports it.
     */
    method UpdateMajor(minorLevels: int, raiseIfCanceled: bool) returns (raised: bool)
      requires Valid()
      modifies this
      ensures Valid()
      ensures raised <==> raiseIfCanceled && old(canceled)
      ensures raised ==> unchanged(this)
      ensures !raised ==>
        && majorLabel == "" && majorLevel == old(majorLevel) + 1
        && numMinorLevels == minorLevels + 1 && minorLevel == 0
        && queue == old(queue) + [Level(MajorProgress(majorLevel, numMajorLevels))]
        && canceled == old(canceled) && done == old(done)
        && numMajorLevels == old(numMajorLevels) && minorLevelStreak == old(minorLevelStreak)
    {
      if raiseIfCanceled && canceled {
        return true;
      }
      raised := false;
      majorLabel := "";
      majorLevel := majorLevel + 1;
      numMinorLevels := minorLevels + 1;
      minorLevel := 0;
      Report(MajorProgress(majorLevel, numMajorLevels));
    }

    /**
     * update_minor (shenidam.py:223-235): the same cancellation check; a
     * major level still at -1 is lifted to 0 before the minor step is counted
     * and the level reported.
     */
    method UpdateMinor(raiseIfCanceled: bool) returns (raised: bool)
      requires Valid()
      modifies this
      ensures Valid()
      ensures raised <==> raiseIfCanceled && old(canceled)
      ensures raised ==> unchanged(this)
      ensures !raised ==>
        && majorLevel == (if old(majorLevel) < 0 then 0 else old(majorLevel))
        && minorLevel == old(minorLevel) + 1
        && queue == old(queue) + [Level(MinorProgress(majorLevel, minorLevel, numMajorLevels, numMinorLevels, minorLevelStreak))]
        && majorLabel == old(majorLabel) && numMinorLevels == old(numMinorLevels)
        && canceled == old(canceled) && done == old(done)
        && numMajorLevels == old(numMajorLevels) && minorLevelStreak == old(minorLevelStreak)
    {
      if raiseIfCanceled && canceled {
        return true;
      }
      raised := false;
      if majorLevel < 0 {
        majorLevel := 0;
      }
      minorLevel := minorLevel + 1;
      var x := MinorProgress(majorLevel, minorLevel, numMajorLevels, numMinorLevels, minorLevelStreak);
      Report(x);
    }

    /** Puts a level that is at most 1 on the queue. */
    method Report(x: real)
      requires Valid() && x <= 1.0
      modifies this
      ensures Valid() && queue == old(queue) + [Level(x)]
      ensures majorLabel == old(majorLabel) && majorLevel == old(majorLevel) && minorLevel == old(minorLevel)
      ensures canceled == old(canceled) && numMajorLevels == old(numMajorLevels)
      ensures numMinorLevels == old(numMinorLevels) && minorLevelStreak == old(minorLevelStreak) && done == old(done)
    {
      queue := queue + [Level(x)];
    }

    /** set_major_text (shenidam.py:236-238): the label is kept for the minor texts and reported. */
    method SetMajorText(text: string)
      requires Valid()
      modifies this
      ensures Valid()
      ensures majorLabel == text && queue == old(queue) + [Text(text)]
      ensures majorLevel == old(majorLevel) && minorLevel == old(minorLevel) && canceled == old(canceled)
      ensures numMajorLevels == old(numMajorLevels) && numMinorLevels == old(numMinorLevels)
      ensures minorLevelStreak == old(minorLevelStreak) && done == old(done)
    {
      majorLabel := text;
      queue := queue + [Text(majorLabel)];
    }

    /** set_minor_text (shenidam.py:239-240): the text is reported after the major label. */
    method SetMinorText(text: string)
      requires Valid()
      modifies this
      ensures Valid()
      ensures queue == old(queue) + [Text(majorLabel + " - " + text)]
      ensures majorLabel == old(majorLabel) && majorLevel == old(majorLevel) && minorLevel == old(minorLevel)
      ensures canceled == old(canceled) && numMajorLevels == old(numMajorLevels)
      ensures numMinorLevels == old(numMinorLevels) && minorLevelStreak == old(minorLevelStreak) && done == old(done)
    {
      queue := queue + [Text(majorLabel + " - " + text)];
    }

    /** refresh (shenidam.py:241-243): raises exactly when canceled, changing nothing. */
    method Refresh() returns (raised: bool)
      ensures raised == canceled
    {
      raised := canceled;
    }

    /** cancel (shenidam.py:244-245): only the flag changes. */
    method Cancel()
      requires Valid()
      modifies this
      ensures Valid() && canceled
      ensures queue == old(queue) && majorLabel == old(majorLabel) && majorLevel == old(majorLevel)
      ensures minorLevel == old(minorLevel) && numMajorLevels == old(numMajorLevels)
      ensures numMinorLevels == old(numMinorLevels) && minorLevelStreak == old(minorLevelStreak) && done == old(done)
    {
      canceled := true;
    }
  }

  // ---------------------------------------------------------------------------
  // The file processor

  /** The events the file processor counts as progress. */
  predicate IsProgressEvent(name: Option<string>)
  {
    name in {Some("base-read"), Some("track-read"), Some("track-position-determined"), Some("wrote-file")}
  }

  /** The minor text for a progress event about the track being processed. */
  function ProgressText(name: string, track: string): string
  {
    if name == "base-read" then "Base file processed"
    else if name == "track-read" then "Track '" + track + "' loaded"
    else if name == "track-position-determined" then "Track '" + track + "' mapped"
    else "Track '" + track + "' exported "
  }

  /** How shenidam_updater ends: normally, on its assert, or with CanceledException from update_minor. */
  datatype UpdaterOutcome = Handled | AssertionFailed | Canceled

  /** The part of ShenidamFileProcessor that follows the messages of a running alignment. */
  class FileProcessor {
    const inputTracks: seq<string>
    var numConverted: int
    const notifier: CancelableProgressNotifier

    ghost predicate Valid()
      reads this, notifier
    {
      0 <= numConverted <= |inputTracks| && notifier.Valid()
    }

    /** run_shenidam sets num_converted to 0 before the command starts (shenidam.py:348-350). */
    constructor (inputTracks: seq<string>, notifier: CancelableProgressNotifier)
      requires notifier.Valid()
      ensures Valid() && this.inputTracks == inputTracks && this.notifier == notifier && numConverted == 0
    {
      this.inputTracks := inputTracks;
      this.notifier := notifier;
      numConverted := 0;
    }

    /**
     * shenidam_updater (shenidam.py:267-279): a progress event advances the
     * minor level and reports its text; only wrote-file moves on to the next
     * track; any other event is ignored.
     */
    method ShenidamUpdater(event: Event) returns (outcome: UpdaterOutcome)
      requires "MESSAGE" in event
      requires Valid()
      modifies this, notifier
      ensures Valid()
      ensures !IsProgressEvent(event["MESSAGE"]) ==>
        outcome == Handled && numConverted == old(numConverted) && unchanged(notifier)
      ensures IsProgressEvent(event["MESSAGE"]) && old(numConverted) >= |inputTracks| ==>
        outcome == AssertionFailed && numConverted == old(numConverted) && unchanged(notifier)
      ensures IsProgressEvent(event["MESSAGE"]) && old(numConverted) < |inputTracks| && old(notifier.canceled) ==>
        outcome == Canceled && numConverted == old(numConverted) && unchanged(notifier)
      ensures IsProgressEvent(event["MESSAGE"]) && old(numConverted) < |inputTracks| && !old(notifier.canceled) ==>
        && outcome == Handled
        && numConverted == old(numConverted) + (if event["MESSAGE"] == Some("wrote-file") then 1 else 0)
        && notifier.majorLevel == (if old(notifier.majorLevel) < 0 then 0 else old(notifier.majorLevel))
        && notifier.minorLevel == old(notifier.minorLevel) + 1
        && notifier.queue == old(notifier.queue) + [
             Level(MinorProgress(notifier.majorLevel, notifier.minorLevel, notifier.numMajorLevels,
                                 notifier.numMinorLevels, notifier.minorLevelStreak)),
             Text(notifier.majorLabel + " - " + ProgressText(event["MESSAGE"].value, inputTracks[old(numConverted)]))]
        && notifier.majorLabel == old(notifier.majorLabel) && notifier.canceled == old(notifier.canceled)
        && notifier.done == old(notifier.done) && notifier.numMajorLevels == old(notifier.numMajorLevels)
        && notifier.numMinorLevels == old(notifier.numMinorLevels)
        && notifier.minorLevelStreak == old(notifier.minorLevelStreak)
    {
      var name := event["MESSAGE"];
      if !IsProgressEvent(name) {
        return Handled;
      }
      if !(numConverted < |inputTracks|) {
        return AssertionFailed;
      }
      var raised := notifier.UpdateMinor(true);
      if raised {
        return Canceled;
      }
      notifier.SetMinorText(ProgressText(name.value, inputTracks[numConverted]));
      if name == Some("wrote-file") {
        numConverted := numConverted + 1;
      }
      outcome := Handled;
    }
  }

  // ---------------------------------------------------------------------------
  // Remix parameters

  /**
   * The parameters remix_audio hands to ffmpeg (shenidam.py:359-361): the
   * given ones, unless they are None or "default", in which case the
   * processor's default for audio-only or audio-video output, itself
   * "-acodec copy" or "-vcodec copy -acodec copy" unless the model sets one
   * (shenidam.py:263-264).
   */
  function RemixParams(params: Option<string>, audioOnly: bool, defaultAudio: Option<string>, defaultAv: Option<string>): (r: string)
    ensures params.Some? && Strip(params.value) != "default" ==> r == params.value
    ensures audioOnly && defaultAudio.Some? && (params.None? || Strip(params.value) == "default") ==> r == defaultAudio.value
    ensures !audioOnly && defaultAv.Some? && (params.None? || Strip(params.value) == "default") ==> r == defaultAv.value
  {
    if params.None? || Strip(params.value) == "default" then
      if audioOnly then defaultAudio.GetOr("-acodec copy") else defaultAv.GetOr("-vcodec copy -acodec copy")
    else params.value
  }

  /** With no defaults in the model, the built-in ones apply: stream copy, with the video for audio-video output. */
  lemma RemixParamsBuiltInDefaults(params: Option<string>, audioOnly: bool)
    requires params.None? || Strip(params.value) == "default"
    ensures RemixParams(params, audioOnly, None, None) == (if audioOnly then "-acodec copy" else "-vcodec copy -acodec copy")
  {
  }

  /**
   * Choosing twice changes nothing: the parameters chosen once are never the
   * "default" marker again, as long as the defaults are not.
   */
  lemma RemixParamsIdempotent(params: Option<string>, audioOnly: bool, defaultAudio: Option<string>, defaultAv: Option<string>)
    requires Strip(defaultAudio.GetOr("-acodec copy")) != "default"
    requires Strip(defaultAv.GetOr("-vcodec copy -acodec copy")) != "default"
    ensures RemixParams(Some(RemixParams(params, audioOnly, defaultAudio, defaultAv)), audioOnly, defaultAudio, defaultAv)
      == RemixParams(params, audioOnly, defaultAudio, defaultAv)
  {
  }

  /** The built-in defaults are not the marker themselves. */
  lemma BuiltInDefaultsAreNotMarker()
    ensures Strip("-acodec copy") != "default" && Strip("-vcodec copy -acodec copy") != "default"
  {
    StripNoEdgeSpace("-acodec copy");
    StripNoEdgeSpace("-vcodec copy -acodec copy");
  }

  // ---------------------------------------------------------------------------
  // check_model

  /**
   * What check_model asks the host: os.path.isdir, os.access with F_OK, R_OK
   * and W_OK, and the exit status of subprocess.call, None when the program
   * cannot be started at all (an OSError).
   */
  datatype Host = Host(
    isDir: string -> bool,
    present: string -> bool,
    readable: string -> bool,
    writable: string -> bool,
    run: seq<string> -> Option<int>)

  /** The fields of a FileProcessorModel that check_model reads; each output entry contributes its pattern. */
  datatype CheckedModel = CheckedModel(
    baseFn: Option<string>,
    inputTracks: seq<string>,
    patterns: seq<Option<string>>,
    tmpDir: string,
    outputTmpDir: Option<string>,
    ffmpeg: string,
    shenidam: string)

  /**
   * How check_model ends: it returns, it raises ModelException with a
   * message, or an exception of another kind escapes it (a TypeError from a
   * None where a path or pattern is expected, an OSError from a program that
   * cannot be started).
   */
  datatype CheckOutcome = Passed | Rejected(message: string) | Raised(error: string)

  predicate CanRead(host: Host, path: string)
  {
    !host.isDir(path) && host.readable(path)
  }

  /** The path check_file_write asks about: the file itself when it exists, otherwise its directory ("." for none). */
  function WriteTarget(host: Host, path: string): string
  {
    if host.present(path) then path
    else
      var dir := Patterns.Dirname(path);
      if dir == "" then "." else dir
  }

  predicate CanWrite(host: Host, path: string)
  {
    !host.isDir(path) && host.writable(WriteTarget(host, path))
  }

  /** The test on each temporary directory: it is a directory, or it can be written. */
  predicate DirUsable(host: Host, dir: string)
  {
    host.isDir(dir) || host.writable(dir)
  }

  /** check_file_read (shenidam.py:393-397): the ModelException message, if any. */
  function ReadProblem(host: Host, path: string): (r: Option<string>)
    ensures r.None? <==> CanRead(host, path)
  {
    if host.isDir(path) then Some("'" + path + "' is a directory")
    else if !host.readable(path) then Some("Cannot read file '" + path + "'")
    else None
  }

  /** check_file_write (shenidam.py:384-392): the ModelException message, if any. */
  function WriteProblem(host: Host, path: string): (r: Option<string>)
    ensures r.None? <==> CanWrite(host, path)
  {
    if host.isDir(path) then Some("'" + path + "' is a directory")
    else
      var target := WriteTarget(host, path);
      if !host.writable(target) then Some("Cannot write file '" + target + "'") else None
  }

  /** The loop over the input tracks: the first problem found, in order. */
  function TracksReadProblem(host: Host, tracks: seq<string>): (r: Option<string>)
    ensures r.None? <==> forall k :: 0 <= k < |tracks| ==> CanRead(host, tracks[k])
    decreases |tracks|
  {
    if tracks == [] then None
    else if ReadProblem(host, tracks[0]).Some? then ReadProblem(host, tracks[0])
    else
      var rest := TracksReadProblem(host, tracks[1..]);
      assert forall k :: 1 <= k < |tracks| ==> tracks[k] == tracks[1..][k - 1];
      rest
  }

  /**
   * The name of the output file of one track for one output pattern:
   * filename_from_pattern, passed as a value so that the loops below speak of
   * output names without unfolding how they are built.
   */
  type Namer = (nat, string, string) -> string

  /** The output file of track k for the pattern y, when y is a pattern. */
  predicate OutputWritable(host: Host, name: Namer, y: Option<string>, tracks: seq<string>, k: nat)
    requires k < |tracks|
  {
    y.Some? && CanWrite(host, name(k, tracks[k], y.value))
  }

  /**
   * The inner loop over the tracks (from track i on) for one output pattern
   * y: a None pattern raises TypeError in filename_from_pattern, an output
   * that cannot be written raises ModelException.
   */
  function OutputsProblem(host: Host, name: Namer, y: Option<string>, tracks: seq<string>, i: nat): (r: Option<CheckOutcome>)
    requires i <= |tracks|
    ensures r.None? <==> forall k :: i <= k < |tracks| ==> OutputWritable(host, name, y, tracks, k)
    ensures r.Some? ==> !r.value.Passed? && (r.value.Raised? ==> r.value.error == "TypeError")
    decreases |tracks| - i
  {
    if i == |tracks| then None
    else if y.None? then
      assert !OutputWritable(host, name, y, tracks, i);
      Some(Raised("TypeError"))
    else
      var problem := WriteProblem(host, name(i, tracks[i], y.value));
      if problem.Some? then
        assert !OutputWritable(host, name, y, tracks, i);
        Some(Rejected(problem.value))
      else OutputsProblem(host, name, y, tracks, i + 1)
  }

  /** The outer loop over the output patterns. */
  function PatternsProblem(host: Host, name: Namer, ys: seq<Option<string>>, tracks: seq<string>): (r: Option<CheckOutcome>)
    ensures r.None? <==> forall j, k :: 0 <= j < |ys| && 0 <= k < |tracks| ==> OutputWritable(host, name, ys[j], tracks, k)
    ensures r.Some? ==> !r.value.Passed? && (r.value.Raised? ==> r.value.error == "TypeError")
    decreases |ys|
  {
    if ys == [] then None
    else if OutputsProblem(host, name, ys[0], tracks, 0).Some? then
      assert !forall k :: 0 <= k < |tracks| ==> OutputWritable(host, name, ys[0], tracks, k);
      OutputsProblem(host, name, ys[0], tracks, 0)
    else
      var rest := PatternsProblem(host, name, ys[1..], tracks);
      assert forall j :: 1 <= j < |ys| ==> ys[j] == ys[1..][j - 1];
      rest
  }

  /** What check_model demands, all at once; name gives the output file names (filename_from_pattern). */
  predicate Sound(host: Host, name: Namer, m: CheckedModel)
  {
    && m.baseFn.Some? && CanRead(host, m.baseFn.value)
    && |m.inputTracks| > 0 && |m.patterns| > 0
    && (forall k :: 0 <= k < |m.inputTracks| ==> CanRead(host, m.inputTracks[k]))
    && (forall j, k :: 0 <= j < |m.patterns| && 0 <= k < |m.inputTracks| ==> OutputWritable(host, name, m.patterns[j], m.inputTracks, k))
    && DirUsable(host, m.tmpDir)
    && m.outputTmpDir.Some? && DirUsable(host, m.outputTmpDir.value)
    && host.run([m.ffmpeg, "-version"]) == Some(0)
    && host.run([m.shenidam, "--shenidam-return-only"]) == Some(0)
  }

  /**
   * check_model (shenidam.py:398-416), in the order of its checks. It passes
   * exactly when every file and program it asks about is usable; an
   * exception other than ModelException is a TypeError or an OSError.
   */
  function CheckModel(host: Host, name: Namer, m: CheckedModel): (r: CheckOutcome)
    ensures r.Passed? <==> Sound(host, name, m)
    ensures r.Raised? ==> r.error == "TypeError" || r.error == "OSError"
  {
    if m.baseFn.None? then Raised("TypeError")
    else if ReadProblem(host, m.baseFn.value).Some? then Rejected(ReadProblem(host, m.baseFn.value).value)
    else if m.inputTracks == [] then Rejected("No input tracks")
    else if m.patterns == [] then Rejected("No output tracks")
    else if TracksReadProblem(host, m.inputTracks).Some? then Rejected(TracksReadProblem(host, m.inputTracks).value)
    else if PatternsProblem(host, name, m.patterns, m.inputTracks).Some? then PatternsProblem(host, name, m.patterns, m.inputTracks).value
    else if !DirUsable(host, m.tmpDir) then Rejected("Cannot write to temporary directory '" + m.tmpDir + "'")
    else if m.outputTmpDir.None? then Raised("TypeError")
    else if !DirUsable(host, m.outputTmpDir.value) then
      Rejected("Cannot write to output temporary directory '" + m.outputTmpDir.value + "'")
    else
      match host.run([m.ffmpeg, "-version"])
      case None => Raised("OSError")
      case Some(code) =>
        if code != 0 then Rejected("Cannot run ffmpeg. Check path.")
        else
          match host.run([m.shenidam, "--shenidam-return-only"])
          case None => Raised("OSError")
          case Some(code') => if code' != 0 then Rejected("Cannot run shenidam. Check path.") else Passed
  }

  /**
   * With a readable base and readable tracks, a first output entry whose
   * pattern is None makes filename_from_pattern raise TypeError, which
   * check_model does not catch.
   */
  lemma NonePatternRaises(host: Host, name: Namer, m: CheckedModel)
    requires m.baseFn.Some? && CanRead(host, m.baseFn.value)
    requires |m.inputTracks| > 0 && |m.patterns| > 0 && m.patterns[0].None?
    requires forall k :: 0 <= k < |m.inputTracks| ==> CanRead(host, m.inputTracks[k])
    ensures CheckModel(host, name, m) == Raised("TypeError")
  {
    assert OutputsProblem(host, name, m.patterns[0], m.inputTracks, 0) == Some(Raised("TypeError"));
  }

  /**
   * Once every file check succeeds, a model whose output temporary directory
   * is None (FileProcessorModel's default, shenidam.py:378) makes
   * os.path.isdir raise TypeError.
   */
  lemma MissingOutputTmpDirRaises(host: Host, name: Namer, m: CheckedModel)
    requires m.baseFn.Some? && CanRead(host, m.baseFn.value)
    requires |m.inputTracks| > 0 && |m.patterns| > 0
    requires forall k :: 0 <= k < |m.inputTracks| ==> CanRead(host, m.inputTracks[k])
    requires forall j, k :: 0 <= j < |m.patterns| && 0 <= k < |m.inputTracks| ==> OutputWritable(host, name, m.patterns[j], m.inputTracks, k)
    requires DirUsable(host, m.tmpDir) && m.outputTmpDir.None?
    ensures CheckModel(host, name, m) == Raised("TypeError")
  {
    assert TracksReadProblem(host, m.inputTracks).None?;
    assert PatternsProblem(host, name, m.patterns, m.inputTracks).None?;
  }

  /**
   * check_model as evidently intended: an unset output temporary directory
   * falls back to the temporary directory, as the file processor itself does
   * (shenidam.py:253). A model with a base and a pattern for every output
   * entry then never raises TypeError: every exception that escapes is an
   * OSError from a program that cannot be started.
   */
  function IntendedCheckModel(host: Host, name: Namer, m: CheckedModel): (r: CheckOutcome)
    ensures r.Passed? <==> Sound(host, name, m.(outputTmpDir := Some(m.outputTmpDir.GetOr(m.tmpDir))))
    ensures m.baseFn.Some? && (forall j :: 0 <= j < |m.patterns| ==> m.patterns[j].Some?) && r.Raised? ==> r.error == "OSError"
  {
    AllPatternsNoTypeError(host, name, m.patterns, m.inputTracks);
    CheckModel(host, name, m.(outputTmpDir := Some(m.outputTmpDir.GetOr(m.tmpDir))))
  }

  /** With a pattern for every output entry, the output checks never raise TypeError. */
  lemma {:induction false} AllPatternsNoTypeError(host: Host, name: Namer, ys: seq<Option<string>>, tracks: seq<string>)
    ensures (forall j :: 0 <= j < |ys| ==> ys[j].Some?) ==>
      PatternsProblem(host, name, ys, tracks) == None || PatternsProblem(host, name, ys, tracks).value.Rejected?
    decreases |ys|
  {
    if ys != [] && ys[0].Some? {
      SomePatternNoTypeError(host, name, ys[0], tracks, 0);
      AllPatternsNoTypeError(host, name, ys[1..], tracks);
    }
  }

  lemma {:induction false} SomePatternNoTypeError(host: Host, name: Namer, y: Option<string>, tracks: seq<string>, i: nat)
    requires y.Some? && i <= |tracks|
    ensures OutputsProblem(host, name, y, tracks, i) == None || OutputsProblem(host, name, y, tracks, i).value.Rejected?
    decreases |tracks| - i
  {
    if i < |tracks| {
      SomePatternNoTypeError(host, name, y, tracks, i + 1);
    }
  }
}
