/** server/roadmap_generator.py: `stream_roadmap_phases` yields one metadata
    line, then one line per phase (phases 1 to `totalPhases`, default 5), each
    phase request carrying the titles of the phases before it; any exception
    ends the stream with one error line.  The script's `__main__` refuses to
    stream without a topic. */
module Roadmap {
  import opened Common

  /** The metadata object; only `totalPhases` is consulted, the rest is
      forwarded as it is. */
  datatype Metadata = Metadata(body: string, totalPhases: Option<int>)

  /** A phase object; only `title` is consulted. */
  datatype Phase = Phase(body: string, title: Option<string>)

  /** The phase chain's input. */
  datatype PhaseRequest = PhaseRequest(topic: string, phaseNumber: nat, totalPhases: int, previousContext: string)

  /** An object the script prints as one JSON line. */
  datatype OutputObject =
    | MetadataLine(metadata: Metadata)
    | PhaseLine(phase: Phase)
    | ErrorLine(error: string)
    | MissingTopic

  const DefaultPhases := 5

  function Max(a: int, b: int): int {
    if a < b then b else a
  }

  /** `f"Phase {phase_num}: {phase.get('title', '')}\n"`. */
  function ContextLine(k: nat, p: Phase): string {
    "Phase " + Decimal(k) + ": " + p.title.GetOr("") + "\n"
  }

  /** The `previous_context` after the phases `ps` (numbered from 1). */
  function ContextOf(ps: seq<Phase>): string
    decreases |ps|
  {
    if |ps| == 0 then "" else ContextOf(ps[..|ps| - 1]) + ContextLine(|ps|, ps[|ps| - 1])
  }

  /** Appending one phase appends its context line. */
  lemma ContextOfSnoc(done: seq<Phase>, p: Phase)
    ensures ContextOf(done + [p]) == ContextOf(done) + ContextLine(|done| + 1, p)
  {
    assert (done + [p])[..|done|] == done;
  }

  /** The objects of the phases after `done` up to `total`, when the phases
      `done` (numbered from 1) have been emitted; the first raise ends them
      with an error object. */
  function PhaseObjects(topic: string, total: int, chain: PhaseRequest -> Result<Phase>, done: seq<Phase>): seq<OutputObject>
    decreases if |done| < total then total - |done| else 0
  {
    if |done| >= total then []
    else
      match chain(PhaseRequest(topic, |done| + 1, total, ContextOf(done)))
      case Err(e) => [ErrorLine(e)]
      case Ok(p) => [PhaseLine(p)] + PhaseObjects(topic, total, chain, done + [p])
  }

  /** The number of phases `metadata.get("totalPhases", 5)`. */
  function TotalPhases(m: Metadata): int {
    m.totalPhases.GetOr(DefaultPhases)
  }

  /** Everything `stream_roadmap_phases` yields, before encoding; when the
      metadata call raises, only its error. */
  function RoadmapObjects(topic: string, metadata: Result<Metadata>, chain: PhaseRequest -> Result<Phase>): seq<OutputObject> {
    match metadata
    case Err(e) => [ErrorLine(e)]
    case Ok(m) => [MetadataLine(m)] + PhaseObjects(topic, TotalPhases(m), chain, [])
  }

  /** `json.dumps(obj) + "\n"` for each object; `encode` stands for
      `json.dumps`. */
  function Frame(encode: OutputObject -> string, objs: seq<OutputObject>): (chunks: seq<string>)
    ensures |chunks| == |objs|
    decreases |objs|
  {
    if |objs| == 0 then [] else [encode(objs[0]) + "\n"] + Frame(encode, objs[1..])
  }

  /** Every framed chunk ends with the newline. */
  lemma {:induction false} FrameLines(encode: OutputObject -> string, objs: seq<OutputObject>)
    ensures var chunks := Frame(encode, objs);
      forall i :: 0 <= i < |chunks| ==> |chunks[i]| > 0 && chunks[i][|chunks[i]| - 1] == '\n'
    decreases |objs|
  {
    if |objs| > 0 {
      FrameLines(encode, objs[1..]);
      var c := encode(objs[0]) + "\n";
      assert Frame(encode, objs) == [c] + Frame(encode, objs[1..]);
      assert c[|c| - 1] == '\n';
    }
  }

  /** `stream_roadmap_phases`: the metadata line, then the loop over
      `range(1, total_phases + 1)` growing `previous_context`, and the
      `except` that yields one error line. */
  method StreamRoadmapPhases(topic: string, metadata: Result<Metadata>, chain: PhaseRequest -> Result<Phase>,
                             encode: OutputObject -> string)
    returns (chunks: seq<string>)
    ensures chunks == Frame(encode, RoadmapObjects(topic, metadata, chain))
    ensures forall i :: 0 <= i < |chunks| ==> |chunks[i]| > 0 && chunks[i][|chunks[i]| - 1] == '\n'
  {
    if metadata.Err? {
      chunks := [encode(ErrorLine(metadata.error)) + "\n"];
      return;
    }
    var m := metadata.value;
    chunks := [encode(MetadataLine(m)) + "\n"];
    var totalPhases := TotalPhases(m);
    var previousContext := "";
    ghost var done: seq<Phase> := [];
    var phaseNum := 1;
    ghost var whole := RoadmapObjects(topic, metadata, chain);
    assert whole[1..] == PhaseObjects(topic, totalPhases, chain, []);
    while phaseNum <= totalPhases
      invariant 1 <= phaseNum && phaseNum == |done| + 1
      invariant previousContext == ContextOf(done)
      invariant chunks + Frame(encode, PhaseObjects(topic, totalPhases, chain, done)) == Frame(encode, whole)
      decreases totalPhases + 1 - phaseNum
    {
      var reply := chain(PhaseRequest(topic, phaseNum, totalPhases, previousContext));
      if reply.Err? {
        chunks := chunks + [encode(ErrorLine(reply.error)) + "\n"];
        FrameLines(encode, whole);
        return;
      }
      var phase := reply.value;
      ghost var objs := PhaseObjects(topic, totalPhases, chain, done);
      assert objs[1..] == PhaseObjects(topic, totalPhases, chain, done + [phase]);
      chunks := chunks + [encode(PhaseLine(phase)) + "\n"];
      ContextOfSnoc(done, phase);
      previousContext := previousContext + ContextLine(phaseNum, phase);
      done := done + [phase];
      phaseNum := phaseNum + 1;
    }
    FrameLines(encode, whole);
  }

  /** The phases emitted before the first object that is not a phase. */
  function EmittedPhases(objs: seq<OutputObject>): (ps: seq<Phase>)
    ensures |ps| <= |objs|
    decreases |objs|
  {
    if |objs| == 0 || !objs[0].PhaseLine? then [] else [objs[0].phase] + EmittedPhases(objs[1..])
  }

  /** The emitted phases are the payloads of the leading phase lines, and
      the object after them (if any) is not a phase line. */
  lemma {:induction false} EmittedPhasesPrefix(objs: seq<OutputObject>)
    ensures var ps := EmittedPhases(objs);
      && (forall i :: 0 <= i < |ps| ==> objs[i] == PhaseLine(ps[i]))
      && (|ps| < |objs| ==> !objs[|ps|].PhaseLine?)
    decreases |objs|
  {
    if |objs| > 0 && objs[0].PhaseLine? {
      EmittedPhasesPrefix(objs[1..]);
    }
  }

  /** What the first object after the phases `done` tells about the request
      for the next phase: a phase line is its reply, followed by the objects
      after it; an error line is what it raised. */
  lemma PhaseObjectsHead(topic: string, total: int, chain: PhaseRequest -> Result<Phase>, done: seq<Phase>)
    requires |PhaseObjects(topic, total, chain, done)| > 0
    ensures var objs := PhaseObjects(topic, total, chain, done);
      var reply := chain(PhaseRequest(topic, |done| + 1, total, ContextOf(done)));
      && |done| < total
      && (objs[0].PhaseLine? ==>
            reply == Ok(objs[0].phase) && objs[1..] == PhaseObjects(topic, total, chain, done + [objs[0].phase]))
      && (objs[0].ErrorLine? ==> reply == Err(objs[0].error) && |objs| == 1)
  {
    var objs := PhaseObjects(topic, total, chain, done);
    var reply := chain(PhaseRequest(topic, |done| + 1, total, ContextOf(done)));
    if reply.Ok? {
      assert objs[1..] == PhaseObjects(topic, total, chain, done + [reply.value]);
    }
  }

  /** After the phases `done`: the objects are phase lines, possibly closed
      by a single error line, and without an error the phases run up to
      `total`. */
  lemma {:induction false} PhaseObjectsShape(topic: string, total: int, chain: PhaseRequest -> Result<Phase>, done: seq<Phase>)
    ensures var objs := PhaseObjects(topic, total, chain, done);
      var ps := EmittedPhases(objs);
      && (|objs| == |ps| || (|objs| == |ps| + 1 && objs[|ps|].ErrorLine?))
      && |done| + |ps| <= Max(total, |done|)
      && (|objs| == |ps| ==> |done| + |ps| == Max(total, |done|))
    decreases if |done| < total then total - |done| else 0
  {
    var objs := PhaseObjects(topic, total, chain, done);
    if |objs| > 0 {
      PhaseObjectsHead(topic, total, chain, done);
      if objs[0].PhaseLine? {
        PhaseObjectsShape(topic, total, chain, done + [objs[0].phase]);
      }
    }
  }

  /** In the phase stream `objs`, the objects after its first `j` phases are
      what the phase loop produces once those phases are done. */
  lemma {:induction false} PhaseSuffix(topic: string, total: int, chain: PhaseRequest -> Result<Phase>, j: nat)
    requires j <= |EmittedPhases(PhaseObjects(topic, total, chain, []))|
    ensures var objs := PhaseObjects(topic, total, chain, []);
      var ps := EmittedPhases(objs);
      PhaseObjects(topic, total, chain, ps[..j]) == objs[j..]
    decreases j
  {
    var objs := PhaseObjects(topic, total, chain, []);
    var ps := EmittedPhases(objs);
    if j > 0 {
      PhaseSuffix(topic, total, chain, j - 1);
      EmittedPhasesPrefix(objs);
      var d := ps[..j - 1];
      assert objs[j - 1..][0] == PhaseLine(ps[j - 1]);
      PhaseObjectsHead(topic, total, chain, d);
      assert d + [ps[j - 1]] == ps[..j];
      assert objs[j - 1..][1..] == objs[j..];
    }
  }

  /** The j-th phase of the phase stream was requested with number `j + 1`
      and the context lines of the phases before it. */
  lemma PhaseRequestAt(topic: string, total: int, chain: PhaseRequest -> Result<Phase>, j: nat)
    requires j < |EmittedPhases(PhaseObjects(topic, total, chain, []))|
    ensures var ps := EmittedPhases(PhaseObjects(topic, total, chain, []));
      chain(PhaseRequest(topic, j + 1, total, ContextOf(ps[..j]))) == Ok(ps[j])
  {
    var objs := PhaseObjects(topic, total, chain, []);
    var ps := EmittedPhases(objs);
    EmittedPhasesPrefix(objs);
    PhaseSuffix(topic, total, chain, j);
    assert objs[j..][0] == PhaseLine(ps[j]);
    PhaseObjectsHead(topic, total, chain, ps[..j]);
  }

  /** An error closing the phase stream is what the request for the phase
      after the emitted ones raised, with the context lines of all of them. */
  lemma PhaseErrorAt(topic: string, total: int, chain: PhaseRequest -> Result<Phase>)
    ensures var objs := PhaseObjects(topic, total, chain, []);
      var ps := EmittedPhases(objs);
      |objs| > |ps| && objs[|ps|].ErrorLine? ==>
        chain(PhaseRequest(topic, |ps| + 1, total, ContextOf(ps))) == Err(objs[|ps|].error)
  {
    var objs := PhaseObjects(topic, total, chain, []);
    var ps := EmittedPhases(objs);
    if |objs| > |ps| && objs[|ps|].ErrorLine? {
      PhaseSuffix(topic, total, chain, |ps|);
      assert ps[..|ps|] == ps;
      assert objs[|ps|..][0] == objs[|ps|];
      PhaseObjectsHead(topic, total, chain, ps);
    }
  }

  /** The shape of the stream: the metadata line first (or only the metadata
      error); then phase lines, exactly `max(0, totalPhases)` of them unless
      a phase raises, in which case one error line ends the stream. */
  lemma RoadmapShape(topic: string, metadata: Result<Metadata>, chain: PhaseRequest -> Result<Phase>)
    ensures var objs := RoadmapObjects(topic, metadata, chain);
      && (metadata.Err? ==> objs == [ErrorLine(metadata.error)])
      && (metadata.Ok? ==>
        var total := TotalPhases(metadata.value);
        var ps := EmittedPhases(objs[1..]);
        && objs[0] == MetadataLine(metadata.value)
        && (|objs| == |ps| + 1 || (|objs| == |ps| + 2 && objs[|objs| - 1].ErrorLine?))
        && (|objs| == |ps| + 1 ==> |ps| == Max(total, 0))
        && |ps| <= Max(total, 0))
  {
    if metadata.Ok? {
      var total := TotalPhases(metadata.value);
      var objs := RoadmapObjects(topic, metadata, chain);
      PhaseObjectsShape(topic, total, chain, []);
      assert objs[1..] == PhaseObjects(topic, total, chain, []);
    }
  }

  /** The requests behind the stream: the j-th phase emitted (from 0) was
      requested with number `j + 1` and the context lines of the phases
      before it, and a closing error is what the request for the next phase
      raised. */
  lemma RoadmapRequests(topic: string, metadata: Result<Metadata>, chain: PhaseRequest -> Result<Phase>)
    requires metadata.Ok?
    ensures var objs := RoadmapObjects(topic, metadata, chain);
      var total := TotalPhases(metadata.value);
      var ps := EmittedPhases(objs[1..]);
      && (forall j :: 0 <= j < |ps| ==> chain(PhaseRequest(topic, j + 1, total, ContextOf(ps[..j]))) == Ok(ps[j]))
      && (|objs| > |ps| + 1 && objs[|ps| + 1].ErrorLine? ==>
            chain(PhaseRequest(topic, |ps| + 1, total, ContextOf(ps))) == Err(objs[|ps| + 1].error))
  {
    var total := TotalPhases(metadata.value);
    var phases := PhaseObjects(topic, total, chain, []);
    assert RoadmapObjects(topic, metadata, chain) == [MetadataLine(metadata.value)] + phases;
    assert ([MetadataLine(metadata.value)] + phases)[1..] == phases;
    var ps := EmittedPhases(phases);
    forall j | 0 <= j < |ps| ensures chain(PhaseRequest(topic, j + 1, total, ContextOf(ps[..j]))) == Ok(ps[j]) {
      PhaseRequestAt(topic, total, chain, j);
    }
    PhaseErrorAt(topic, total, chain);
  }

  lemma {:induction false} ConcatFrame(encode: OutputObject -> string, objs: seq<OutputObject>)
    requires forall i :: 0 <= i < |objs| ==> '\n' !in encode(objs[i])
    ensures SplitLines(Concat(Frame(encode, objs))) == Encoded(encode, objs)
    decreases |objs|
  {
    if |objs| > 0 {
      var x := encode(objs[0]);
      assert Frame(encode, objs)[1..] == Frame(encode, objs[1..]);
      ConcatFrame(encode, objs[1..]);
      assert forall j :: 0 <= j < |x| ==> x[j] != '\n' by {
        forall j | 0 <= j < |x| ensures x[j] != '\n' {
          assert x[j] in x;
        }
      }
      SplitLinesCons(x, Concat(Frame(encode, objs[1..])));
    }
  }

  /** The encodings of the objects, one per object. */
  function Encoded(encode: OutputObject -> string, objs: seq<OutputObject>): (lines: seq<string>)
    ensures |lines| == |objs|
    ensures forall i :: 0 <= i < |objs| ==> lines[i] == encode(objs[i])
    decreases |objs|
  {
    if |objs| == 0 then [] else [encode(objs[0])] + Encoded(encode, objs[1..])
  }

  /** A line reader of the printed stream gets back every object's encoding,
      one per line, as long as the encoder writes no newline (which
      `json.dumps` without `indent` never does). */
  lemma FramingRoundTrip(topic: string, metadata: Result<Metadata>, chain: PhaseRequest -> Result<Phase>,
                         encode: OutputObject -> string)
    requires forall o: OutputObject :: '\n' !in encode(o)
    ensures SplitLines(Concat(Frame(encode, RoadmapObjects(topic, metadata, chain)))) ==
      Encoded(encode, RoadmapObjects(topic, metadata, chain))
  {
    ConcatFrame(encode, RoadmapObjects(topic, metadata, chain));
  }

  /** The phase number the request for phase `j` carries renders as `j`. */
  lemma PhaseNumberRendering(k: nat, p: Phase)
    ensures var line := ContextLine(k, p);
      && line[..6] == "Phase "
      && DecimalValue(line[6..6 + |Decimal(k)|]) == k
      && line[|line| - 1] == '\n'
  {
    var line := ContextLine(k, p);
    assert line[6..6 + |Decimal(k)|] == Decimal(k);
    DecimalRoundTrip(k);
  }

  /** The script: without a topic (`ROADMAP_TOPIC` unset or empty) it prints
      one error object and exits with 1; otherwise it prints the stream
      unchanged and exits normally. */
  method RunRoadmapScript(topicEnv: Option<string>, metadata: Result<Metadata>, chain: PhaseRequest -> Result<Phase>,
                          encode: OutputObject -> string)
    returns (printed: seq<string>, exitCode: int)
    ensures (topicEnv.None? || topicEnv.value == "") <==> exitCode == 1
    ensures exitCode == 1 ==> printed == [encode(MissingTopic) + "\n"]
    ensures exitCode != 1 ==> exitCode == 0 && printed == Frame(encode, RoadmapObjects(topicEnv.value, metadata, chain))
  {
    if topicEnv.None? || topicEnv.value == "" {
      return [encode(MissingTopic) + "\n"], 1;
    }
    printed := StreamRoadmapPhases(topicEnv.value, metadata, chain, encode);
    exitCode := 0;
  }
}
