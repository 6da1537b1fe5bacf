// Resetting the sample workspace: a fresh folder is built beside the current
// one and swapped in by renames, with a phase recorded between them. Each step
// is one effect that succeeds or fails, and a crash may fall anywhere.

module SampleSwap {
  import opened Prelude

  /** A whole folder, as its inspection sees it. */
  type Folder = seq<byte>

  datatype Inspection = Foreign | Outdated | Current(manifest: string)

  datatype Env = Env(inspect: Folder -> Inspection)

  datatype Phase = Building | Built | SwappedAside

  datatype Outcome = Reset | ResetRolledBack

  /** The folders this operation removes, when it can. */
  datatype Sibling = Staging | Retired

  datatype Pc =
    | Ready | Creating | Filling | RecordBuilt(manifest: string) | Looking | Retire | RecordSwap | Install | Verify
    | Undo(had: bool) | PutBack | Clean | Record(outcome: Outcome) | CleanRetired | Over | Down

  /** `phase` and `built` are the recorded operation, `outcome` its terminal. History: `orig` is the
      sample before, `made` the folder that was built and verified, and `trapped` says that some
      reconciliation began where a finished rollback had not been recorded. */
  datatype State = State(
    canonical: Option<Folder>, staging: Option<Folder>, retired: Option<Folder>,
    phase: Option<Phase>, built: Option<string>, outcome: Option<Outcome>, pending: set<Sibling>,
    pc: Pc, orig: Option<Folder>, made: Option<Folder>, trapped: bool)

  datatype Event = Done | Fault | Crash | Start | Write(folder: Folder) | Sweep(sibling: Sibling, recorded: bool)

  /** The sample there was is back in place, and nothing else remains to say so. */
  predicate Trap(s: State) {
    s.phase == Some(SwappedAside) && s.staging.None? && s.retired.None? && s.orig.Some?
  }

  predicate Installed(env: Env, s: State) {
    && s.phase == Some(SwappedAside) && s.staging.None?
    && s.canonical.Some? && env.inspect(s.canonical.value).Current?
    && s.built == Some(env.inspect(s.canonical.value).manifest)
  }

  // ---- Steps ----

  /** Building beside the current sample. */
  function BuildStep(env: Env, s: State, e: Event): State {
    match s.pc
    case Ready => if e.Done? then s.(phase := Some(Building), pc := Creating) else s
    case Creating =>
      if e.Done? then s.(staging := Some([]), pc := Filling) else s.(pc := Record(ResetRolledBack))
    case Filling =>
      if e.Write? then s.(staging := Some(e.folder))
      else if e.Done? && s.staging.Some? && env.inspect(s.staging.value).Current? then
        s.(pc := RecordBuilt(env.inspect(s.staging.value).manifest))
      else s.(pc := Clean)
    case RecordBuilt(m) =>
      if e.Done? then s.(phase := Some(Built), built := Some(m), made := s.staging, pc := Looking)
      else s.(pc := Down)
    case _ => s
  }

  /** The current sample moves aside and the fresh one in. */
  function SwapStep(env: Env, s: State, e: Event): State {
    match s.pc
    case Looking =>
      if s.canonical.None? then s.(pc := RecordSwap)
      else if !e.Done? then s.(pc := Down)
      else s.(pc := if env.inspect(s.canonical.value) == Foreign then Clean else Retire)
    case Retire =>
      if e.Done? then s.(canonical := None, retired := s.canonical, pc := RecordSwap) else s.(pc := Clean)
    case RecordSwap => if e.Done? then s.(phase := Some(SwappedAside), pc := Install) else s.(pc := Down)
    case Install =>
      if e.Done? then s.(canonical := s.staging, staging := None, pc := Verify) else s.(pc := Undo(s.retired.Some?))
    case Verify =>
      if e.Done? && Installed(env, s) then s.(pc := Record(Reset)) else s.(pc := Undo(s.retired.Some?))
    case _ => s
  }

  /** Back to the sample there was, or to none. */
  function UndoStep(s: State, e: Event): State {
    match s.pc
    case Undo(had) =>
      if s.phase == Some(SwappedAside) && s.canonical.Some? && s.staging.None? && (s.retired.Some? || !had) then
        if e.Done? then s.(staging := s.canonical, canonical := None, pc := PutBack) else s.(pc := Down)
      else s.(pc := PutBack)
    case PutBack =>
      if s.canonical.None? && s.retired.Some? then
        if e.Done? then s.(canonical := s.retired, retired := None, pc := Clean) else s.(pc := Down)
      else s.(pc := Clean)
    case Clean =>
      if e.Write? && s.staging.Some? then s.(staging := Some(e.folder))
      else if e.Done? then s.(staging := None, pc := Record(ResetRolledBack))
      else
        s.(pending := if s.staging.Some? then s.pending + {Staging} else s.pending, pc := Record(ResetRolledBack))
    case _ => s
  }

  function EndStep(env: Env, s: State, e: Event): State {
    match s.pc
    case Record(outcome) =>
      if e.Done? then
        s.(phase := None, outcome := Some(outcome), pc := if outcome == Reset then CleanRetired else Over)
      else s.(pc := Down)
    case CleanRetired =>
      if s.retired.None? || (e.Done? && env.inspect(s.retired.value) == Foreign) then s.(pc := Over)
      else if e.Done? then s.(retired := None, pc := Over)
      else s.(pending := s.pending + {Retired}, pc := Over)
    case Over =>
      if e.Sweep? && e.sibling in s.pending then
        s.(staging := if e.sibling == Staging then None else s.staging,
           retired := if e.sibling == Retired then None else s.retired,
           pending := if e.recorded then s.pending - {e.sibling} else s.pending)
      else s
    case _ => s
  }

  /** At startup an interrupted reset is finished only if the fresh sample is in place and verifies;
      anything short of that rolls back. */
  function StartStep(env: Env, s: State, e: Event): State {
    if !e.Start? then s
    else if s.phase.None? then s.(pc := if s.outcome.None? then Ready else Over)
    else
      s.(trapped := s.trapped || Trap(s), pc := if Installed(env, s) then Record(Reset) else Undo(s.retired.Some?))
  }

  function Next(env: Env, s: State, e: Event): State {
    if e.Crash? then s.(pc := Down)
    else
      match s.pc
      case Ready | Creating | Filling => BuildStep(env, s, e)
      case RecordBuilt(_) => BuildStep(env, s, e)
      case Looking | Retire | RecordSwap | Install | Verify => SwapStep(env, s, e)
      case Undo(_) => UndoStep(s, e)
      case PutBack | Clean => UndoStep(s, e)
      case Record(_) => EndStep(env, s, e)
      case CleanRetired | Over => EndStep(env, s, e)
      case Down => StartStep(env, s, e)
  }

  function Run(env: Env, s: State, es: seq<Event>): State
    decreases |es|
  {
    if es == [] then s else Run(env, Next(env, s, es[0]), es[1..])
  }

  /** A fresh operation: nothing stands at its staging or retired names. */
  predicate Initial(s: State) {
    && s.staging.None? && s.retired.None? && s.phase.None? && s.built.None? && s.outcome.None?
    && s.pending == {} && s.pc == Ready && s.orig == s.canonical && s.made.None? && !s.trapped
  }

  // ---- What every run keeps ----

  predicate InPlace(s: State) { s.canonical == s.orig && s.retired.None? }

  predicate MovedAside(s: State) { s.canonical.None? && s.retired == s.orig }

  predicate Swapped(s: State) { s.canonical == s.made && s.staging.None? && s.retired == s.orig }

  predicate Waiting(s: State) { MovedAside(s) && s.staging == s.made }

  /** Where the folders are, by the recorded phase. */
  predicate ByPhase(env: Env, s: State) {
    match s.phase
    case None => true
    case Some(Building) => InPlace(s)
    case Some(Built) => Verified(env, s) && (InPlace(s) || MovedAside(s))
    case Some(SwappedAside) => Verified(env, s) && (Waiting(s) || Swapped(s) || InPlace(s))
  }

  predicate Verified(env: Env, s: State) {
    s.made.Some? && env.inspect(s.made.value).Current? && s.built == Some(env.inspect(s.made.value).manifest)
  }

  predicate Tidy(s: State) { s.staging.None? || Staging in s.pending }

  /** The recorded outcome says what is in place. */
  predicate Truth(env: Env, s: State, o: Outcome) {
    match o
    case Reset => Verified(env, s) && s.canonical == s.made
    case ResetRolledBack => s.canonical == s.orig
  }

  predicate AtPc(env: Env, s: State) {
    match s.pc
    case Ready => s.phase.None? && s.outcome.None? && InPlace(s) && s.staging.None?
    case Creating => s.phase == Some(Building) && s.staging.None?
    case Filling => s.phase == Some(Building) && s.staging.Some?
    case RecordBuilt(m) =>
      s.phase == Some(Building) && s.staging.Some? && env.inspect(s.staging.value) == Current(m)
    case Looking => s.phase == Some(Built) && InPlace(s) && s.staging == s.made
    case Retire => s.phase == Some(Built) && InPlace(s) && s.staging == s.made && s.canonical.Some?
    case RecordSwap => s.phase == Some(Built) && Waiting(s)
    case Install => s.phase == Some(SwappedAside) && Waiting(s)
    case Verify => s.phase == Some(SwappedAside) && Swapped(s)
    case Undo(had) => s.phase.Some? && had == s.retired.Some? && !Trap(s)
    case PutBack =>
      && s.phase.Some? && (InPlace(s) || MovedAside(s))
      && (s.phase == Some(SwappedAside) ==> s.staging.Some? || s.orig.None?)
    case Clean => s.phase.Some? && InPlace(s)
    case Record(ResetRolledBack) => s.phase.Some? && InPlace(s) && Tidy(s)
    case Record(Reset) => s.phase == Some(SwappedAside) && Swapped(s)
    case CleanRetired => s.phase.None? && s.outcome == Some(Reset) && Truth(env, s, Reset) && s.staging.None?
    case Over => s.phase.None?
    case Down => true
  }

  /** What holds even after the trap. */
  predicate Base(s: State) {
    && (s.pc == Ready ==> s.phase.None? && s.outcome.None?)
    && (s.pc == Over || s.pc == CleanRetired ==> s.phase.None? && s.outcome.Some?)
    && (s.trapped ==> s.phase.Some? || s.outcome.Some?)
  }

  predicate Inv(env: Env, s: State) {
    Base(s) && InvBefore(env, s)
  }

  predicate InvBefore(env: Env, s: State) {
    s.trapped ||
    (&& ByPhase(env, s) && AtPc(env, s)
     && (s.outcome.Some? ==> s.phase.None? && Truth(env, s, s.outcome.value) && Tidy(s))
     && (s.phase.None? && s.outcome.None? ==> InPlace(s) && s.staging.None?))
  }

  lemma BuildKeepsInv(env: Env, s: State, e: Event)
    requires Inv(env, s) && !s.trapped
    ensures InvBefore(env, BuildStep(env, s, e))
  {
  }

  lemma SwapKeepsInv(env: Env, s: State, e: Event)
    requires Inv(env, s) && !s.trapped
    ensures InvBefore(env, SwapStep(env, s, e))
  {
  }

  lemma UndoKeepsInv(env: Env, s: State, e: Event)
    requires Inv(env, s) && !s.trapped
    ensures InvBefore(env, UndoStep(s, e))
  {
  }

  lemma EndKeepsInv(env: Env, s: State, e: Event)
    requires Inv(env, s) && !s.trapped
    ensures InvBefore(env, EndStep(env, s, e))
  {
  }

  lemma StartKeepsInv(env: Env, s: State, e: Event)
    requires Inv(env, s) && !s.trapped && s.pc == Down
    ensures InvBefore(env, StartStep(env, s, e))
  {
  }

  lemma NextKeepsBase(env: Env, s: State, e: Event)
    requires Base(s)
    ensures Base(Next(env, s, e))
    ensures s.trapped ==> Next(env, s, e).trapped
  {
  }

  lemma NextKeepsInv(env: Env, s: State, e: Event)
    requires Inv(env, s)
    ensures Inv(env, Next(env, s, e))
  {
    NextKeepsBase(env, s, e);
    if !s.trapped && !e.Crash? {
      BuildKeepsInv(env, s, e);
      SwapKeepsInv(env, s, e);
      UndoKeepsInv(env, s, e);
      EndKeepsInv(env, s, e);
      if s.pc == Down {
        StartKeepsInv(env, s, e);
      }
    }
  }

  lemma {:induction false} RunKeepsInv(env: Env, s: State, es: seq<Event>)
    requires Inv(env, s)
    ensures Inv(env, Run(env, s, es))
    decreases |es|
  {
    if es == [] {
    } else {
      NextKeepsInv(env, s, es[0]);
      RunKeepsInv(env, Next(env, s, es[0]), es[1..]);
    }
  }

  lemma {:induction false} RunSplits(env: Env, s: State, es: seq<Event>, fs: seq<Event>)
    ensures Run(env, s, es + fs) == Run(env, Run(env, s, es), fs)
    decreases |es|
  {
    if es == [] {
      assert es + fs == fs;
    } else {
      assert (es + fs)[0] == es[0] && (es + fs)[1..] == es[1..] + fs;
      RunSplits(env, Next(env, s, es[0]), es[1..], fs);
    }
  }

  // ---- Main results ----

  /** However often it is interrupted, a reset that is never reconciled from the trap records `Reset`
      only with the verified fresh sample in place and `ResetRolledBack` only with the sample there
      was, or none if there was none; its staging folder is gone or recorded for removal. */
  lemma OutcomesAreTrue(env: Env, s: State, es: seq<Event>)
    requires Initial(s)
    ensures
      var t := Run(env, s, es);
      t.outcome.Some? && !t.trapped ==> Truth(env, t, t.outcome.value) && Tidy(t)
  {
    RunKeepsInv(env, s, es);
  }

  /** Until then the sample there was is in place or moved aside, whole. */
  lemma OriginalIsKept(env: Env, s: State, es: seq<Event>)
    requires Initial(s)
    ensures
      var t := Run(env, s, es);
      t.phase.Some? && !t.trapped ==> t.canonical == t.orig || t.retired == t.orig
  {
    RunKeepsInv(env, s, es);
  }

  predicate Forward(pc: Pc) {
    pc.Ready? || pc.Creating? || pc.Filling? || pc.RecordBuilt? || pc.Looking? || pc.Retire? || pc.RecordSwap?
    || pc.Install? || pc.Verify? || pc == Record(Reset)
  }

  predicate ForwardRun(env: Env, s: State, es: seq<Event>)
    decreases |es|
  {
    Forward(s.pc) && (es != [] ==> ForwardRun(env, Next(env, s, es[0]), es[1..]))
  }

  /** No point of the forward path is the trap. */
  lemma {:induction false} ForwardIsNoTrap(env: Env, s: State, es: seq<Event>)
    requires Inv(env, s) && !s.trapped && ForwardRun(env, s, es)
    ensures !Trap(Run(env, s, es)) && !Run(env, s, es).trapped
    decreases |es|
  {
    if es == [] {
    } else {
      NextKeepsInv(env, s, es[0]);
      ForwardIsNoTrap(env, Next(env, s, es[0]), es[1..]);
    }
  }

  /** One reconciliation left alone. */
  function Undisturbed(env: Env, s: State, n: nat): State
    decreases n
  {
    if n == 0 then s else Undisturbed(env, Next(env, s, Done), n - 1)
  }

  function Reconciled(env: Env, s: State): State { Undisturbed(env, Next(env, s, Start), 5) }

  lemma Settled(env: Env, s: State, n: nat)
    requires s.pc == Over
    ensures Undisturbed(env, s, n) == s
    decreases n
  {
    if n > 0 {
      Settled(env, s, n - 1);
    }
  }

  lemma ReconcileEnds(env: Env, s: State)
    requires s.pc == Down && s.phase.Some?
    ensures
      var t := Reconciled(env, s);
      && t.pc == Over && t.phase.None? && t.outcome.Some? && t.orig == s.orig && t.made == s.made && t.built == s.built
      && (t.outcome == Some(Reset) <==> Installed(env, s))
      && (t.outcome == Some(Reset) ==> t.canonical == s.canonical)
      && (t.outcome == Some(ResetRolledBack) ==>
            t.canonical ==
            if s.phase == Some(SwappedAside) && s.staging.None? then s.retired
            else if s.canonical.Some? then s.canonical else s.retired)
  {
    var a := Next(env, s, Start);
    var b := Next(env, a, Done);
    var c := Next(env, b, Done);
    assert Undisturbed(env, a, 5) == Undisturbed(env, b, 4) == Undisturbed(env, c, 3);
    if Installed(env, s) {
      Settled(env, c, 3);
    } else {
      var d := Next(env, c, Done);
      var e := Next(env, d, Done);
      assert Undisturbed(env, c, 3) == Undisturbed(env, d, 2) == Undisturbed(env, e, 1);
      Settled(env, e, 1);
    }
  }

  /** A reset left alone: the folder is created, written once, and nothing fails. */
  function ResetAlone(env: Env, s: State, written: Folder): State {
    Undisturbed(env, Next(env, Undisturbed(env, s, 2), Write(written)), 9)
  }

  lemma Stepped(env: Env, s: State, n: nat)
    requires n > 0
    ensures Undisturbed(env, s, n) == Undisturbed(env, Next(env, s, Done), n - 1)
  {
  }

  lemma BuiltAlone(env: Env, s: State, f: Folder)
    requires Initial(s)
    ensures
      var t := Undisturbed(env, Next(env, Undisturbed(env, s, 2), Write(f)), if env.inspect(f).Current? then 2 else 1);
      t == if env.inspect(f).Current?
           then s.(staging := Some(f), phase := Some(Built), built := Some(env.inspect(f).manifest), made := Some(f),
                   pc := Looking)
           else s.(staging := Some(f), phase := Some(Building), pc := Clean)
  {
    var a := Next(env, s, Done);
    var b := Next(env, a, Done);
    assert Undisturbed(env, s, 2) == Undisturbed(env, a, 1) == Undisturbed(env, b, 0);
    var c := Next(env, b, Write(f));
    var d := Next(env, c, Done);
    if env.inspect(f).Current? {
      assert Undisturbed(env, c, 2) == Undisturbed(env, d, 1) == Undisturbed(env, Next(env, d, Done), 0);
    } else {
      assert Undisturbed(env, c, 1) == Undisturbed(env, d, 0);
    }
  }

  lemma {:induction false} UndisturbedSplits(env: Env, s: State, m: nat, n: nat)
    ensures Undisturbed(env, s, m + n) == Undisturbed(env, Undisturbed(env, s, m), n)
    decreases m
  {
    if m == 0 {
    } else {
      UndisturbedSplits(env, Next(env, s, Done), m - 1, n);
    }
  }

  lemma CleanedAlone(env: Env, s: State, n: nat)
    requires s.pc == Clean && n >= 2
    ensures Undisturbed(env, s, n) == s.(staging := None, phase := None, outcome := Some(ResetRolledBack), pc := Over)
  {
    var a := Next(env, s, Done);
    var b := Next(env, a, Done);
    Stepped(env, s, n);
    Stepped(env, a, n - 1);
    Settled(env, b, n - 2);
  }

  lemma AsideAlone(env: Env, s: State)
    requires s.pc == Looking && s.retired.None?
    requires s.canonical.Some? ==> env.inspect(s.canonical.value) != Foreign
    ensures Undisturbed(env, s, if s.canonical.Some? then 2 else 1) ==
            s.(canonical := None, retired := s.canonical, pc := RecordSwap)
  {
    var a := Next(env, s, Done);
    Stepped(env, s, if s.canonical.Some? then 2 else 1);
    if s.canonical.Some? {
      Stepped(env, a, 1);
    }
  }

  lemma SwappedAlone(env: Env, s: State, n: nat)
    requires s.pc == RecordSwap && s.canonical.None? && s.staging.Some? && n >= 5
    requires env.inspect(s.staging.value).Current?
    requires s.built == Some(env.inspect(s.staging.value).manifest)
    requires s.retired.Some? ==> env.inspect(s.retired.value) != Foreign
    ensures Undisturbed(env, s, n) ==
            s.(canonical := s.staging, staging := None, retired := None, phase := None, outcome := Some(Reset),
               pc := Over)
  {
    var a := Next(env, s, Done);
    var b := Next(env, a, Done);
    var c := Next(env, b, Done);
    var d := Next(env, c, Done);
    var e := Next(env, d, Done);
    Stepped(env, s, n);
    Stepped(env, a, n - 1);
    Stepped(env, b, n - 2);
    Stepped(env, c, n - 3);
    Stepped(env, d, n - 4);
    Settled(env, e, n - 5);
  }

  /** A reset left alone ends, and installs exactly what was written if that verifies and the sample
      there was is none or not foreign, outdated or not; otherwise the sample there was stays. Nothing
      is left beside it either way. */
  lemma ResetAloneEnds(env: Env, s: State, f: Folder)
    requires Initial(s)
    ensures
      var t := ResetAlone(env, s, f);
      var installs := env.inspect(f).Current? && (s.canonical.Some? ==> env.inspect(s.canonical.value) != Foreign);
      && t.pc == Over && t.phase.None? && t.staging.None? && t.retired.None? && t.pending == {}
      && t.outcome == Some(if installs then Reset else ResetRolledBack)
      && t.canonical == (if installs then Some(f) else s.canonical)
  {
    BuiltAlone(env, s, f);
    var w := Next(env, Undisturbed(env, s, 2), Write(f));
    if !env.inspect(f).Current? {
      UndisturbedSplits(env, w, 1, 8);
      CleanedAlone(env, Undisturbed(env, w, 1), 8);
    } else {
      UndisturbedSplits(env, w, 2, 7);
      var b := Undisturbed(env, w, 2);
      if b.canonical.Some? && env.inspect(b.canonical.value) == Foreign {
        Stepped(env, b, 7);
        CleanedAlone(env, Next(env, b, Done), 6);
      } else {
        var m := if b.canonical.Some? then 2 else 1;
        AsideAlone(env, b);
        UndisturbedSplits(env, b, m, 7 - m);
        SwappedAlone(env, Undisturbed(env, b, m), 7 - m);
      }
    }
  }

  /** From any interrupted state, one reconciliation left alone ends the operation, and what it
      records is true exactly when it did not begin in the trap, or the sample in place there is the
      very one that was built. */
  lemma ReconcileTruthfulIff(env: Env, s: State)
    requires Inv(env, s) && !s.trapped && s.pc == Down && s.phase.Some?
    ensures
      var t := Reconciled(env, s);
      && t.outcome.Some?
      && (Truth(env, t, t.outcome.value) <==> !Trap(s) || s.canonical == s.made)
  {
    ReconcileEnds(env, s);
  }

  // ---- What a start can see ----

  /** Everything that is durable. */
  predicate Alike(s: State, t: State) {
    && s.canonical == t.canonical && s.staging == t.staging && s.retired == t.retired
    && s.phase == t.phase && s.built == t.built && s.outcome == t.outcome && s.pending == t.pending && s.pc == t.pc
  }

  /** Swapped by its record, and nothing beside the sample in place. */
  predicate Alone(s: State) { s.phase == Some(SwappedAside) && s.staging.None? && s.retired.None? }

  /** With anything beside the sample, or before the swap was recorded, what is recorded is true. */
  lemma ReconcileTruthfulUnlessAlone(env: Env, s: State)
    requires Inv(env, s) && !s.trapped && s.pc == Down && s.phase.Some? && !Alone(s)
    ensures Reconciled(env, s).outcome.Some?
    ensures Truth(env, Reconciled(env, s), Reconciled(env, s).outcome.value)
  {
    ReconcileTruthfulIff(env, s);
  }

  /** What an outcome promises that an inspection can tell: `Reset`, that what is in place verifies as
      what was built. */
  predicate Promised(env: Env, s: State, o: Outcome) {
    match o
    case Reset =>
      s.canonical.Some? && env.inspect(s.canonical.value).Current?
      && s.built == Some(env.inspect(s.canonical.value).manifest)
    case ResetRolledBack => s.canonical == s.orig
  }

  /** In that sense it fails exactly when a sample stands alone that does not verify as built, which a
      start can see before it does anything. */
  lemma ReconcileHoldsIff(env: Env, s: State)
    requires Inv(env, s) && !s.trapped && s.pc == Down && s.phase.Some?
    ensures Reconciled(env, s).outcome.Some?
    ensures Promised(env, Reconciled(env, s), Reconciled(env, s).outcome.value)
            <==> !(Alone(s) && s.canonical.Some? && !Installed(env, s))
  {
    ReconcileEnds(env, s);
  }

  lemma {:induction false} UndisturbedKeepsInv(env: Env, s: State, n: nat)
    requires Inv(env, s)
    ensures Inv(env, Undisturbed(env, s, n)) && Undisturbed(env, s, n).trapped == s.trapped
    decreases n
  {
    if n == 0 {
    } else {
      NextKeepsInv(env, s, Done);
      UndisturbedKeepsInv(env, Next(env, s, Done), n - 1);
    }
  }

  /** A crash anywhere on the forward path, then one reconciliation left alone. */
  lemma CrashThenReconcile(env: Env, s: State, es: seq<Event>)
    requires Initial(s) && ForwardRun(env, s, es) && Run(env, s, es).phase.Some?
    ensures
      var t := Reconciled(env, Next(env, Run(env, s, es), Crash));
      t.outcome.Some? && Truth(env, t, t.outcome.value) && Tidy(t)
  {
    RunKeepsInv(env, s, es);
    ForwardIsNoTrap(env, s, es);
    var u := Next(env, Run(env, s, es), Crash);
    NextKeepsInv(env, Run(env, s, es), Crash);
    ReconcileTruthfulIff(env, u);
    NextKeepsInv(env, u, Start);
    UndisturbedKeepsInv(env, Next(env, u, Start), 5);
  }

  // ---- The trap can be reached ----

  const EXAMPLE := Env(
    (f: Folder) => if f == [1] then Current("fresh") else if f == [2] then Current("older") else Outdated)

  const BEFORE := State(Some([2]), None, None, None, None, None, {}, Ready, Some([2]), None, false)

  /** Build, swap, fail to verify, put back, clean up, and lose power before the outcome is recorded. */
  const TO_THE_TRAP := [Done, Done, Write([1]), Done, Done, Done, Done, Done, Done, Fault, Done, Done, Done, Crash]

  const HALFWAY :=
    State(None, Some([1]), Some([2]), Some(Built), Some("fresh"), None, {}, RecordSwap, Some([2]), Some([1]), false)

  const CAUGHT :=
    State(Some([2]), None, None, Some(SwappedAside), Some("fresh"), None, {}, Down, Some([2]), Some([1]), false)

  lemma FirstHalf()
    ensures Initial(BEFORE)
    ensures Run(EXAMPLE, BEFORE, [Done, Done, Write([1]), Done, Done, Done, Done]) ==
            HALFWAY
  {
  }

  lemma SecondHalf()
    ensures Run(EXAMPLE, HALFWAY, [Done, Done, Fault, Done, Done, Done, Crash]) == CAUGHT
  {
  }

  lemma Halves(first: seq<Event>, second: seq<Event>)
    requires first == [Done, Done, Write([1]), Done, Done, Done, Done]
    requires second == [Done, Done, Fault, Done, Done, Done, Crash]
    ensures Run(EXAMPLE, BEFORE, first + second) == CAUGHT
  {
    RunSplits(EXAMPLE, BEFORE, first, second);
    FirstHalf();
    SecondHalf();
  }

  lemma TrapIsReached()
    ensures Run(EXAMPLE, BEFORE, TO_THE_TRAP) == CAUGHT
  {
    var first := [Done, Done, Write([1]), Done, Done, Done, Done];
    var second := [Done, Done, Fault, Done, Done, Done, Crash];
    Halves(first, second);
    assert TO_THE_TRAP == first + second;
  }

  lemma CaughtLoses()
    ensures
      var t := Reconciled(EXAMPLE, CAUGHT);
      t.outcome == Some(ResetRolledBack) && t.canonical.None? && t.staging.None? && t.retired.None?
  {
    ReconcileEnds(EXAMPLE, CAUGHT);
    NothingRemains(EXAMPLE, CAUGHT);
  }

  /** A reset that was rolled back whole and lost power before recording it: the next reconciliation,
      undisturbed, takes the sample there was for the fresh one and removes it. */
  lemma RolledBackSampleCanBeRemoved()
    ensures exists es ::
              var s := Run(EXAMPLE, BEFORE, es);
              && Initial(BEFORE) && s.pc == Down && s.canonical == s.orig && s.orig.Some?
              && var t := Reconciled(EXAMPLE, s);
                 t.outcome == Some(ResetRolledBack) && t.canonical.None? && t.staging.None? && t.retired.None?
  {
    FirstHalf();
    TrapIsReached();
    CaughtLoses();
  }

  lemma NothingRemains(env: Env, s: State)
    requires s.pc == Down && Trap(s) && s.canonical.Some? && !Installed(env, s)
    ensures Reconciled(env, s).staging.None? && Reconciled(env, s).retired.None?
  {
    var a := Next(env, s, Start);
    var b := Next(env, a, Done);
    var c := Next(env, b, Done);
    var d := Next(env, c, Done);
    var e := Next(env, d, Done);
    assert Undisturbed(env, a, 5) == Undisturbed(env, b, 4) == Undisturbed(env, c, 3) == Undisturbed(env, d, 2);
    assert Undisturbed(env, d, 2) == Undisturbed(env, e, 1);
    Settled(env, e, 1);
  }

  // ---- No visible condition decides the rest ----

  /** Two contents that verify alike, as an edited sample and a fresh one of the same seed do. */
  const SAME_SEED := Env((f: Folder) => if f == [1] || f == [2] then Current("seed") else Outdated)

  const NO_SAMPLE := State(None, None, None, None, None, None, {}, Ready, None, None, false)

  const EDITED := State(Some([1]), None, None, None, None, None, {}, Ready, Some([1]), None, false)

  /** The fresh sample was installed and the power went before that was recorded. */
  const FRESH_IN_PLACE :=
    State(Some([1]), None, None, Some(SwappedAside), Some("seed"), None, {}, Down, None, Some([1]), false)

  /** The fresh sample could not be verified, the edited one was put back, and the power went. */
  const EDITED_IN_PLACE :=
    State(Some([1]), None, None, Some(SwappedAside), Some("seed"), None, {}, Down, Some([1]), Some([2]), false)

  lemma FreshReached()
    ensures Initial(NO_SAMPLE)
    ensures Run(SAME_SEED, NO_SAMPLE, [Done, Done, Write([1]), Done, Done, Done, Done, Done, Crash]) == FRESH_IN_PLACE
  {
  }

  const EDITED_ASIDE :=
    State(None, Some([2]), Some([1]), Some(Built), Some("seed"), None, {}, RecordSwap, Some([1]), Some([2]), false)

  lemma EditedAside()
    ensures Initial(EDITED)
    ensures Run(SAME_SEED, EDITED, [Done, Done, Write([2]), Done, Done, Done, Done]) == EDITED_ASIDE
  {
  }

  lemma EditedBack()
    ensures Run(SAME_SEED, EDITED_ASIDE, [Done, Done, Fault, Done, Done, Done, Crash]) == EDITED_IN_PLACE
  {
  }

  lemma EditedHalves(first: seq<Event>, second: seq<Event>)
    requires first == [Done, Done, Write([2]), Done, Done, Done, Done]
    requires second == [Done, Done, Fault, Done, Done, Done, Crash]
    ensures Run(SAME_SEED, EDITED, first + second) == EDITED_IN_PLACE
  {
    RunSplits(SAME_SEED, EDITED, first, second);
    EditedAside();
    EditedBack();
  }

  lemma EditedReached() returns (es: seq<Event>)
    ensures Run(SAME_SEED, EDITED, es) == EDITED_IN_PLACE
  {
    var first := [Done, Done, Write([2]), Done, Done, Done, Done];
    var second := [Done, Done, Fault, Done, Done, Done, Crash];
    EditedHalves(first, second);
    es := first + second;
  }

  lemma FreshIsTrue()
    ensures
      var t := Reconciled(SAME_SEED, FRESH_IN_PLACE);
      t.outcome.Some? && Truth(SAME_SEED, t, t.outcome.value)
  {
    ReconcileEnds(SAME_SEED, FRESH_IN_PLACE);
  }

  lemma EditedIsFalse()
    ensures
      var t := Reconciled(SAME_SEED, EDITED_IN_PLACE);
      t.outcome == Some(Reset) && !Truth(SAME_SEED, t, Reset) && t.canonical == t.orig
  {
    ReconcileEnds(SAME_SEED, EDITED_IN_PLACE);
  }

  /** Two reachable states that a start cannot tell apart: reconciling the one records the truth,
      reconciling the other records `Reset` with the edited sample still in place. */
  lemma NoVisibleConditionDecides() returns (es: seq<Event>, fs: seq<Event>)
    ensures Initial(NO_SAMPLE) && Initial(EDITED)
    ensures Run(SAME_SEED, NO_SAMPLE, es) == FRESH_IN_PLACE && Run(SAME_SEED, EDITED, fs) == EDITED_IN_PLACE
    ensures Alike(FRESH_IN_PLACE, EDITED_IN_PLACE)
    ensures
      var t := Reconciled(SAME_SEED, FRESH_IN_PLACE);
      t.outcome.Some? && Truth(SAME_SEED, t, t.outcome.value)
    ensures
      var t := Reconciled(SAME_SEED, EDITED_IN_PLACE);
      t.outcome == Some(Reset) && !Truth(SAME_SEED, t, Reset) && t.canonical == t.orig
  {
    FreshReached();
    EditedAside();
    es := [Done, Done, Write([1]), Done, Done, Done, Done, Done, Crash];
    fs := EditedReached();
    FreshIsTrue();
    EditedIsFalse();
  }
}
