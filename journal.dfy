/** The append-only record of one pairing session
    (src/pair_programming_voice_bot/notion_logger.py), and the 1900-character
    blocks its final code is cut into for upload. */
module Journal {
  import opened Wrappers
  import opened Struggle

  datatype ModeSwitchRecord = ModeSwitchRecord(timestamp: real, previous: string, current: string, trigger: string)
  datatype StruggleRecord = StruggleRecord(timestamp: real, kind: string, context: SignalContext)
  datatype LookupRecord = LookupRecord(query: string, summary: string)
  datatype TestRecord = TestRecord(stageIndex: int, visiblePassed: int, visibleTotal: int)

  /** What `to_dict` exposes. */
  datatype JournalDict = JournalDict(
    questionName: string,
    modeSwitches: seq<ModeSwitchRecord>,
    struggleMoments: seq<StruggleRecord>,
    browserbaseLookups: seq<LookupRecord>,
    testTimeline: seq<TestRecord>,
    finalCode: Option<string>)

  /** `SessionJournal`. */
  class SessionJournal {
    const questionName: string
    var modeSwitches: seq<ModeSwitchRecord>
    var struggleMoments: seq<StruggleRecord>
    var browserbaseLookups: seq<LookupRecord>
    var testTimeline: seq<TestRecord>
    var finalCode: Option<string>

    constructor (questionName: string)
      ensures ToDict() == JournalDict(questionName, [], [], [], [], None)
    {
      this.questionName := questionName;
      modeSwitches := [];
      struggleMoments := [];
      browserbaseLookups := [];
      testTimeline := [];
      finalCode := None;
    }

    /** `to_dict`: the question name, the four lists and the final code. */
    function ToDict(): (d: JournalDict)
      reads this
      ensures d.questionName == questionName && d.finalCode == finalCode
      ensures d.modeSwitches == modeSwitches && d.struggleMoments == struggleMoments
      ensures d.browserbaseLookups == browserbaseLookups && d.testTimeline == testTimeline
    {
      JournalDict(questionName, modeSwitches, struggleMoments, browserbaseLookups, testTimeline, finalCode)
    }

    /** `log_mode_switch`: one more mode switch, nothing else changes. */
    method LogModeSwitch(previous: string, current: string, trigger: string, timestamp: real)
      modifies this
      ensures ToDict() == old(ToDict()).(modeSwitches := old(modeSwitches) + [ModeSwitchRecord(timestamp, previous, current, trigger)])
    {
      modeSwitches := modeSwitches + [ModeSwitchRecord(timestamp, previous, current, trigger)];
    }

    /** `log_struggle`: one more struggle moment, nothing else changes. */
    method LogStruggle(kind: string, timestamp: real, context: SignalContext)
      modifies this
      ensures ToDict() == old(ToDict()).(struggleMoments := old(struggleMoments) + [StruggleRecord(timestamp, kind, context)])
    {
      struggleMoments := struggleMoments + [StruggleRecord(timestamp, kind, context)];
    }

    /** `log_lookup`: one more lookup, nothing else changes. */
    method LogLookup(query: string, summary: string)
      modifies this
      ensures ToDict() == old(ToDict()).(browserbaseLookups := old(browserbaseLookups) + [LookupRecord(query, summary)])
    {
      browserbaseLookups := browserbaseLookups + [LookupRecord(query, summary)];
    }

    /** `log_test_result`: one more test record, nothing else changes. */
    method LogTestResult(stageIndex: int, visiblePassed: int, visibleTotal: int)
      modifies this
      ensures ToDict() == old(ToDict()).(testTimeline := old(testTimeline) + [TestRecord(stageIndex, visiblePassed, visibleTotal)])
    {
      testTimeline := testTimeline + [TestRecord(stageIndex, visiblePassed, visibleTotal)];
    }

    /** `set_final_code`: overwrites the final code. */
    method SetFinalCode(code: string)
      modifies this
      ensures ToDict() == old(ToDict()).(finalCode := Some(code))
    {
      finalCode := Some(code);
    }
  }

  // ------------------------------------------------------------ chunking

  const ChunkSize := 1900

  /** `code[i:i+1900]` for `i` in `range(0, len(code), 1900)`. */
  function Chunks(code: string): seq<string>
    decreases |code|
  {
    if code == [] then []
    else if |code| <= ChunkSize then [code]
    else [code[..ChunkSize]] + Chunks(code[ChunkSize..])
  }

  function Concat(parts: seq<string>): string
    decreases |parts|
  {
    if parts == [] then "" else parts[0] + Concat(parts[1..])
  }

  /** The blocks put back together are the code; every block holds between
      1 and 1900 characters, every one but the last exactly 1900, and there
      are ceil(len / 1900) of them. */
  lemma {:induction false} ChunksReassemble(code: string)
    ensures Concat(Chunks(code)) == code
    ensures forall i :: 0 <= i < |Chunks(code)| ==> 1 <= |Chunks(code)[i]| <= ChunkSize
    ensures forall i :: 0 <= i < |Chunks(code)| - 1 ==> |Chunks(code)[i]| == ChunkSize
    ensures |Chunks(code)| == (|code| + ChunkSize - 1) / ChunkSize
    decreases |code|
  {
    if |code| > ChunkSize {
      var rest := code[ChunkSize..];
      ChunksReassemble(rest);
      var cs := Chunks(code);
      assert cs[1..] == Chunks(rest);
      assert code == code[..ChunkSize] + rest;
      assert forall i :: 1 <= i < |cs| ==> cs[i] == Chunks(rest)[i - 1];
    }
  }

  /** The upload loop that cuts the final code into code blocks. */
  method CodeChunks(code: string) returns (chunks: seq<string>)
    ensures chunks == Chunks(code)
  {
    chunks := [];
    var i := 0;
    while i < |code|
      invariant 0 <= i <= |code| || (i > 0 && i % ChunkSize == 0 && i - ChunkSize < |code|)
      invariant i % ChunkSize == 0
      invariant chunks + Chunks(if i < |code| then code[i..] else []) == Chunks(code)
      decreases |code| - i
    {
      var end := if i + ChunkSize < |code| then i + ChunkSize else |code|;
      assert Chunks(code[i..]) == [code[i..end]] + Chunks(if i + ChunkSize < |code| then code[i + ChunkSize..] else []) by {
        if i + ChunkSize < |code| {
          assert code[i..][..ChunkSize] == code[i..end];
          assert code[i..][ChunkSize..] == code[i + ChunkSize..];
        } else {
          assert code[i..end] == code[i..];
        }
      }
      chunks := chunks + [code[i..end]];
      i := i + ChunkSize;
    }
  }
}
