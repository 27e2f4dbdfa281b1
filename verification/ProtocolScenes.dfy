/** Reachable opening states of a run, from which the lemmas that exhibit a run go on. */
module ProtocolScenes {
  import opened Types
  import opened Protocol
  import opened ProtocolEffects
  import T = Trajectory

  const ASK := Message(User, [], [], "", "", [])

  function Numbered(e: Event, sq: int): Event { e.(sq := sq) }

  const OPENED := [Numbered(PlainEvent(RunStart), 1)]

  function FirstAttempt(cfg: Config, pc: Pc, messages: seq<Message>, sq: int, canceled: bool): Attempt {
    Attempt(cfg, None, sq, canceled, false, messages, 1, pc, Past(0, 0, true, true, false, false))
  }

  lemma Beginning(cfg: Config) returns (s: State)
    requires !cfg.resumed
    ensures Reachable(s)
    ensures s == State([], None, None, Some(FirstAttempt(cfg, Creating, [ASK], 0, false)),
                       {}, {}, Trace([], [], [], true))
  {
    var s0, start := Init({}), Launch(StartRun([ASK], cfg.tools, cfg.parallel, cfg.maxSteps, cfg.maxBytes));
    assert Legal(s0, []) && Run(s0, []) == s0;
    Reach(s0, start);
    s := Apply(s0, start);
    var empty: set<string> := {};
    assert CallIds([ASK]) == empty && s.used == empty;
    assert [ASK][1..] == [];
    assert T.Closed([ASK]);
    assert s.live.value == FirstAttempt(cfg, Creating, [ASK], 0, false);
  }

  lemma Registering(cfg: Config) returns (s: State)
    requires !cfg.resumed
    ensures Reachable(s)
    ensures s == State([], None, Some(Record(Running, None, 0)), Some(FirstAttempt(cfg, FirstSave, [ASK], 0, false)),
                       {}, {}, Trace([], [], [], true))
  {
    var s1 := Beginning(cfg);
    Reach(s1, Loop(RecordWrite(Stored)));
    var s2 := Apply(s1, Loop(RecordWrite(Stored)));
    Reach(s2, Loop(RecordWrite(Stored)));
    s := Apply(s2, Loop(RecordWrite(Stored)));
  }

  lemma Opened(cfg: Config) returns (s: State)
    requires !cfg.resumed
    ensures Reachable(s)
    ensures s == State([], Some([ASK]), Some(Record(Running, None, 0)),
                       Some(FirstAttempt(cfg, Opening, [ASK], 0, false)), {}, {}, Trace([], [], [], true))
  {
    var s3 := Registering(cfg);
    Reach(s3, Loop(CheckpointWrite(Stored)));
    s := Apply(s3, Loop(CheckpointWrite(Stored)));
  }

  lemma AtTheTop(cfg: Config) returns (s: State)
    requires !cfg.resumed
    ensures Reachable(s)
    ensures s == State(OPENED, Some([ASK]), Some(Record(Running, None, 0)),
                       Some(FirstAttempt(cfg, Top, [ASK], 1, false)), {}, {}, Trace([], [], [], true))
  {
    var s4 := Opened(cfg);
    Reach(s4, Loop(PlainEmit(Stored)));
    s := Apply(s4, Loop(PlainEmit(Stored)));
  }

  lemma Prompting(cfg: Config) returns (s: State)
    requires !cfg.resumed
    ensures Reachable(s)
    ensures s == State(OPENED, Some([ASK]), Some(Record(Running, None, 0)),
                       Some(FirstAttempt(cfg, InModel, [ASK], 1, false)), {}, {}, Trace([], [[ASK]], [], true))
  {
    var s5 := AtTheTop(cfg);
    Reach(s5, Loop(CallModel));
    s := Apply(s5, Loop(CallModel));
  }
}
