/** Per-symbol exit statistics of the taker stat-arb bot, and what survives a restart. */
module TradeStats {
  import opened Common

  type Base = string

  datatype Side = Long | Short

  /** The six fields that are written to disk. */
  datatype Stats = Stats(ema: real, n: nat, wins: nat, total: real, streak: nat, lastMs: int)

  const FRESH := Stats(0.0, 0, 0, 0.0, 0, 0)

  datatype Exit = Exit(pnl: real, ms: int)

  function Decay(alpha: real, ema: real, x: real): real { (1.0 - alpha) * ema + alpha * x }

  function AfterExit(alpha: real, s: Stats, e: Exit): Stats {
    Stats(Decay(alpha, s.ema, e.pnl), s.n + 1, if e.pnl > 0.0 then s.wins + 1 else s.wins,
          s.total + e.pnl, if e.pnl > 0.0 then 0 else s.streak + 1, e.ms)
  }

  function Folded(alpha: real, h: seq<Exit>): Stats {
    if h == [] then FRESH else AfterExit(alpha, Folded(alpha, h[..|h| - 1]), h[|h| - 1])
  }

  // ----- What the fields mean -----

  ghost function Profitable(h: seq<Exit>): set<nat> {
    set i: nat | i < |h| && h[i].pnl > 0.0
  }

  function SumPnl(h: seq<Exit>): real {
    if h == [] then 0.0 else h[0].pnl + SumPnl(h[1..])
  }

  function Pow(x: real, n: nat): real {
    if n == 0 then 1.0 else x * Pow(x, n - 1)
  }

  /** What a sample `age` exits back contributes to the average. */
  function Share(alpha: real, age: nat, x: real): real { alpha * Pow(1.0 - alpha, age) * x }

  function WeightedSum(alpha: real, h: seq<Exit>): real {
    if h == [] then 0.0 else Share(alpha, |h| - 1, h[0].pnl) + WeightedSum(alpha, h[1..])
  }

  /** `k` is the length of the longest run of exits without profit at the end of `h`. */
  ghost predicate TrailingRun(h: seq<Exit>, k: nat) {
    && k <= |h|
    && (forall i :: |h| - k <= i < |h| ==> h[i].pnl <= 0.0)
    && (k < |h| ==> h[|h| - k - 1].pnl > 0.0)
  }

  lemma {:induction false} SumPnlAppend(h: seq<Exit>, e: Exit)
    ensures SumPnl(h + [e]) == SumPnl(h) + e.pnl
    decreases |h|
  {
    if h != [] {
      assert (h + [e])[1..] == h[1..] + [e];
      SumPnlAppend(h[1..], e);
    }
  }

  lemma {:induction false} WeightedSumAppend(alpha: real, h: seq<Exit>, e: Exit)
    ensures WeightedSum(alpha, h + [e]) == Decay(alpha, WeightedSum(alpha, h), e.pnl)
    decreases |h|
  {
    if h == [] {
      assert (h + [e])[1..] == [];
      ShareNow(alpha, e.pnl);
    } else {
      assert (h + [e])[1..] == h[1..] + [e];
      WeightedSumAppend(alpha, h[1..], e);
      ShareAges(alpha, |h| - 1, h[0].pnl);
      DecaySum(alpha, Share(alpha, |h| - 1, h[0].pnl), WeightedSum(alpha, h[1..]), e.pnl);
    }
  }

  lemma ShareNow(alpha: real, x: real)
    ensures Share(alpha, 0, x) == Decay(alpha, 0.0, x)
  {
    assert Pow(1.0 - alpha, 0) == 1.0;
  }

  lemma ShareAges(alpha: real, age: nat, x: real)
    ensures Share(alpha, age + 1, x) == (1.0 - alpha) * Share(alpha, age, x)
  {
    Shuffle(alpha, 1.0 - alpha, Pow(1.0 - alpha, age), x);
  }

  lemma Shuffle(a: real, q: real, p: real, x: real)
    ensures a * (q * p) * x == q * (a * p * x)
  {}

  lemma DecaySum(alpha: real, t: real, w: real, y: real)
    ensures Decay(alpha, t + w, y) == (1.0 - alpha) * t + Decay(alpha, w, y)
  {}

  lemma ProfitableAppend(h: seq<Exit>, e: Exit)
    ensures Profitable(h + [e]) == if e.pnl > 0.0 then Profitable(h) + {|h|} else Profitable(h)
  {
    var g := h + [e];
    assert forall i: nat :: i < |h| ==> g[i] == h[i];
  }

  lemma {:induction false} EmaIsWeightedSum(alpha: real, h: seq<Exit>)
    ensures Folded(alpha, h).ema == WeightedSum(alpha, h)
    decreases |h|
  {
    if h != [] {
      var g, e := h[..|h| - 1], h[|h| - 1];
      assert h == g + [e];
      EmaIsWeightedSum(alpha, g);
      WeightedSumAppend(alpha, g, e);
    }
  }

  lemma {:induction false} StreakIsTrailingRun(alpha: real, h: seq<Exit>)
    ensures TrailingRun(h, Folded(alpha, h).streak)
    decreases |h|
  {
    if h != [] {
      StreakIsTrailingRun(alpha, h[..|h| - 1]);
    }
  }

  lemma {:induction false} CountersAreCounts(alpha: real, h: seq<Exit>)
    ensures var s := Folded(alpha, h); s.n == |h| && s.wins == |Profitable(h)| && s.total == SumPnl(h)
    decreases |h|
  {
    if h != [] {
      var g, e := h[..|h| - 1], h[|h| - 1];
      assert h == g + [e];
      CountersAreCounts(alpha, g);
      SumPnlAppend(g, e);
      ProfitableAppend(g, e);
    }
  }

  /** Whatever the exits, the counters are the counts and sums of the whole history, the streak is its
      trailing run without profit and the average is its closed weighted sum. */
  lemma FieldsAreFolds(alpha: real, h: seq<Exit>)
    ensures var s := Folded(alpha, h);
      && s.n == |h| && s.wins == |Profitable(h)| && s.total == SumPnl(h)
      && TrailingRun(h, s.streak) && s.ema == WeightedSum(alpha, h)
  {
    CountersAreCounts(alpha, h);
    StreakIsTrailingRun(alpha, h);
    EmaIsWeightedSum(alpha, h);
  }

  lemma TrailingRunUnique(h: seq<Exit>, j: nat, k: nat)
    requires TrailingRun(h, j) && TrailingRun(h, k)
    ensures j == k
  {}

  /** The average stays inside every interval that holds 0 and all the samples. */
  lemma {:induction false} EmaInHull(alpha: real, h: seq<Exit>, lo: real, hi: real)
    requires 0.0 <= alpha <= 1.0 && lo <= 0.0 <= hi
    requires forall i :: 0 <= i < |h| ==> lo <= h[i].pnl <= hi
    ensures lo <= Folded(alpha, h).ema <= hi
    decreases |h|
  {
    if h != [] {
      EmaInHull(alpha, h[..|h| - 1], lo, hi);
      Mix(Folded(alpha, h[..|h| - 1]).ema, h[|h| - 1].pnl, alpha, lo, hi);
    }
  }

  // ----- Saving and loading over whole lifetimes -----

  predicate Skipped(s: Stats) { s.n == 0 && s.ema == 0.0 }

  function SavedOf(live: map<Base, Stats>): map<Base, Stats> {
    map b | b in live && !Skipped(live[b]) :: live[b]
  }

  function Loaded(universe: set<Base>, file: map<Base, Stats>): map<Base, Stats> {
    map b | b in universe :: if b in file then file[b] else FRESH
  }

  /** Memory and disk; a missing file is an empty map. */
  datatype Store = Store(live: map<Base, Stats>, file: map<Base, Stats>)

  /** `Save(false)` is a save that raised before its rename; `Restart` is a stop or crash followed by
      a start with the given symbols. */
  datatype Op = Record(base: Base, exit: Exit) | Save(ok: bool) | Restart(universe: set<Base>)

  function Apply(alpha: real, st: Store, op: Op): Store {
    match op
    case Record(b, e) => if b in st.live then st.(live := st.live[b := AfterExit(alpha, st.live[b], e)]) else st
    case Save(ok) => if ok then st.(file := SavedOf(st.live)) else st
    case Restart(u) => st.(live := Loaded(u, st.file))
  }

  function Run(alpha: real, st: Store, ops: seq<Op>): Store
    decreases |ops|
  {
    if ops == [] then st else Run(alpha, Apply(alpha, st, ops[0]), ops[1..])
  }

  /** Which exits count, per symbol: those in memory and those at the last good save. */
  datatype Histories = Histories(now: map<Base, seq<Exit>>, saved: map<Base, seq<Exit>>)

  function Remember(h: Histories, op: Op): Histories {
    match op
    case Record(b, e) => if b in h.now then h.(now := h.now[b := h.now[b] + [e]]) else h
    case Save(ok) => if ok then h.(saved := h.now) else h
    case Restart(u) => h.(now := map b | b in u :: if b in h.saved then h.saved[b] else [])
  }

  function RememberAll(h: Histories, ops: seq<Op>): Histories
    decreases |ops|
  {
    if ops == [] then h else RememberAll(Remember(h, ops[0]), ops[1..])
  }

  ghost predicate Match(alpha: real, st: Store, h: Histories) {
    && st.live == (map b | b in h.now :: Folded(alpha, h.now[b]))
    && st.file == (map b | b in h.saved && h.saved[b] != [] :: Folded(alpha, h.saved[b]))
  }

  lemma SkippedMeansNoExit(alpha: real, h: seq<Exit>)
    ensures Skipped(Folded(alpha, h)) <==> h == []
  {
    FieldsAreFolds(alpha, h);
  }

  lemma RecordMatch(alpha: real, st: Store, h: Histories, b: Base, e: Exit)
    requires Match(alpha, st, h)
    ensures Match(alpha, Apply(alpha, st, Record(b, e)), Remember(h, Record(b, e)))
  {
    if b in h.now {
      var g := h.now[b] + [e];
      assert g[..|g| - 1] == h.now[b];
      assert Folded(alpha, g) == AfterExit(alpha, st.live[b], e);
    }
  }

  lemma SaveMatch(alpha: real, st: Store, h: Histories)
    requires Match(alpha, st, h)
    ensures Match(alpha, Apply(alpha, st, Save(true)), Remember(h, Save(true)))
  {
    forall b | b in h.now
      ensures Skipped(Folded(alpha, h.now[b])) <==> h.now[b] == []
    {
      SkippedMeansNoExit(alpha, h.now[b]);
    }
  }

  lemma StepMatch(alpha: real, st: Store, h: Histories, op: Op)
    requires Match(alpha, st, h)
    ensures Match(alpha, Apply(alpha, st, op), Remember(h, op))
  {
    match op {
      case Record(b, e) => RecordMatch(alpha, st, h, b, e);
      case Save(ok) =>
        if ok { SaveMatch(alpha, st, h); }
      case Restart(u) =>
        var g := Remember(h, op);
        forall b | b in u
          ensures Loaded(u, st.file)[b] == Folded(alpha, g.now[b])
        {}
    }
  }

  /** After any mix of exits, saves, failed saves and restarts, every live symbol's six fields are the
      folds of the exits that count for it, and the file holds the symbols that had any at the last
      good save, with the folds of those exits. */
  lemma {:induction false} StoreIsReplay(alpha: real, st: Store, h: Histories, ops: seq<Op>)
    requires Match(alpha, st, h)
    ensures Match(alpha, Run(alpha, st, ops), RememberAll(h, ops))
    decreases |ops|
  {
    if ops != [] {
      StepMatch(alpha, st, h, ops[0]);
      StoreIsReplay(alpha, Apply(alpha, st, ops[0]), Remember(h, ops[0]), ops[1..]);
    }
  }

  /** Loading what a save just wrote restores all six fields of every symbol, also of the symbols the
      save left out. */
  lemma LoadRestoresSave(alpha: real, st: Store, h: Histories, ops: seq<Op>)
    requires Match(alpha, st, h)
    ensures var w := Run(alpha, st, ops); Loaded(w.live.Keys, SavedOf(w.live)) == w.live
  {
    StoreIsReplay(alpha, st, h, ops);
    var w, g := Run(alpha, st, ops), RememberAll(h, ops);
    forall b | b in w.live
      ensures Skipped(w.live[b]) ==> w.live[b] == FRESH
    {
      SkippedMeansNoExit(alpha, g.now[b]);
    }
  }

  lemma {:induction false} FileKept(alpha: real, st: Store, ops: seq<Op>)
    requires forall i :: 0 <= i < |ops| ==> ops[i] != Save(true)
    ensures Run(alpha, st, ops).file == st.file
    decreases |ops|
  {
    if ops != [] {
      FileKept(alpha, Apply(alpha, st, ops[0]), ops[1..]);
    }
  }

  lemma {:induction false} RunAppend(alpha: real, st: Store, a: seq<Op>, b: seq<Op>)
    ensures Run(alpha, st, a + b) == Run(alpha, Run(alpha, st, a), b)
    decreases |a|
  {
    if a == [] {
      assert a + b == b;
    } else {
      assert (a + b)[1..] == a[1..] + b;
      RunAppend(alpha, Apply(alpha, st, a[0]), a[1..], b);
    }
  }

  /** A crash rolls back exactly to the last good save: with any exits, failed saves and restarts in
      between, restarting with the same symbols gives the statistics of the moment of the save. */
  lemma CrashRollsBackToSave(alpha: real, st: Store, h: Histories, before: seq<Op>, lost: seq<Op>)
    requires Match(alpha, st, h)
    requires forall i :: 0 <= i < |lost| ==> lost[i] != Save(true)
    ensures var w := Run(alpha, st, before);
      Run(alpha, st, before + [Save(true)] + lost + [Restart(w.live.Keys)]).live == w.live
  {
    var w := Run(alpha, st, before);
    var r := [Restart(w.live.Keys)];
    RunAppend(alpha, st, before + [Save(true)] + lost, r);
    RunAppend(alpha, st, before + [Save(true)], lost);
    RunAppend(alpha, st, before, [Save(true)]);
    var x := Apply(alpha, w, Save(true));
    assert [Save(true)][1..] == [];
    assert Run(alpha, w, [Save(true)]) == Run(alpha, x, []) == x;
    FileKept(alpha, x, lost);
    var y := Run(alpha, x, lost);
    assert r[1..] == [];
    assert Run(alpha, y, r) == Run(alpha, Apply(alpha, y, r[0]), []);
    LoadRestoresSave(alpha, st, h, before);
  }

  /** A good save of the run finds the symbol off the list. */
  predicate SavedOffList(alpha: real, st: Store, ops: seq<Op>, b: Base)
    decreases |ops|
  {
    ops != [] && ((ops[0] == Save(true) && b !in st.live) || SavedOffList(alpha, Apply(alpha, st, ops[0]), ops[1..], b))
  }

  predicate NoExitOf(ops: seq<Op>, b: Base) {
    forall i :: 0 <= i < |ops| && ops[i].Record? ==> ops[i].base != b
  }

  /** The symbol's record is on file, and in memory too while it is listed. */
  predicate Kept(st: Store, b: Base, v: Stats) {
    b in st.file && st.file[b] == v && (b in st.live ==> st.live[b] == v)
  }

  /** Neither file nor memory has anything of the symbol. */
  predicate Forgotten(st: Store, b: Base) { b !in st.file && (b in st.live ==> st.live[b] == FRESH) }

  lemma {:induction false} ForgottenStays(alpha: real, st: Store, ops: seq<Op>, b: Base)
    requires Forgotten(st, b) && NoExitOf(ops, b)
    ensures Forgotten(Run(alpha, st, ops), b)
    decreases |ops|
  {
    if ops != [] { ForgottenStays(alpha, Apply(alpha, st, ops[0]), ops[1..], b); }
  }

  lemma {:induction false} KeptUntilSavedOffList(alpha: real, st: Store, ops: seq<Op>, b: Base, v: Stats)
    requires Kept(st, b, v) && !Skipped(v) && NoExitOf(ops, b)
    ensures SavedOffList(alpha, st, ops, b) ==> Forgotten(Run(alpha, st, ops), b)
    ensures !SavedOffList(alpha, st, ops, b) ==> Kept(Run(alpha, st, ops), b, v)
    decreases |ops|
  {
    if ops != [] {
      var st1 := Apply(alpha, st, ops[0]);
      if ops[0] == Save(true) && b !in st.live {
        ForgottenStays(alpha, st1, ops[1..], b);
      } else {
        KeptUntilSavedOffList(alpha, st1, ops[1..], b, v);
      }
    }
  }

  /** A saved symbol with a record gets it back at a later start, whatever happened to others in between,
      exactly when it is on the list and no good save since found it off the list. */
  lemma ComesBackIff(alpha: real, st: Store, b: Base, ops: seq<Op>, on: set<Base>)
    requires b in st.live && !Skipped(st.live[b]) && NoExitOf(ops, b)
    ensures var w := Run(alpha, st, [Save(true)] + ops + [Restart(on)]);
      b in w.live && w.live[b] == st.live[b] <==>
        b in on && !SavedOffList(alpha, Apply(alpha, st, Save(true)), ops, b)
  {
    var x := Apply(alpha, st, Save(true));
    RunAppend(alpha, st, [Save(true)] + ops, [Restart(on)]);
    RunAppend(alpha, st, [Save(true)], ops);
    RunOne(alpha, st, Save(true));
    RunOne(alpha, Run(alpha, x, ops), Restart(on));
    KeptUntilSavedOffList(alpha, x, ops, b, st.live[b]);
  }

  lemma RunOne(alpha: real, st: Store, op: Op)
    ensures Run(alpha, st, [op]) == Apply(alpha, st, op)
  {
    assert [op][1..] == [];
  }

  /** One save while a symbol is off the list forgets it for good, whatever it had. */
  lemma OffListSaveForgets(alpha: real, st: Store, b: Base, off: set<Base>, on: set<Base>)
    requires b !in off && b in on
    ensures var w := Run(alpha, st, [Restart(off), Save(true), Restart(on)]); b in w.live && w.live[b] == FRESH
  {
    var ops := [Restart(off), Save(true), Restart(on)];
    var s1 := Apply(alpha, st, ops[0]);
    var s2 := Apply(alpha, s1, ops[1]);
    assert ops[1..] == [ops[1], ops[2]] && ops[1..][1..] == [ops[2]] && [ops[2]][1..] == [];
    assert Run(alpha, st, ops) == Run(alpha, s1, ops[1..]) == Run(alpha, s2, [ops[2]]);
    RunOne(alpha, s2, ops[2]);
  }

  // ----- The bot -----

  datatype SymbolState = SymbolState(
    idle: bool, entrySide: Option<Side>, entryPrice: real, entryAmount: real,
    cooldownUntil: real, blacklistUntil: real, stats: Stats)

  function PnlBp(side: Side, entry: real, close: real): real
    requires entry > 0.0
  {
    (close - entry) / entry * 10000.0 * (if side == Long then 1.0 else -1.0)
  }

  function Usd(bp: real, amount: real): real { bp * amount / 10000.0 }

  /** Seconds of blacklist after an exit with profit `pnl`, given the updated statistics. */
  function BanSeconds(s: Stats, pnl: real): Option<real> {
    if s.total < -40.0 then Some(86400.0)
    else if s.total < -20.0 then Some(3600.0)
    else if pnl < -12.0 then Some(1800.0)
    else if s.streak >= 3 then Some(1800.0)
    else if s.streak >= 2 then Some(300.0)
    else None
  }

  /** The last `k` exits were without profit. */
  predicate NoProfit(h: seq<Exit>, k: nat) {
    k <= |h| && forall i :: |h| - k <= i < |h| ==> h[i].pnl <= 0.0
  }

  lemma StreakAtLeast(alpha: real, h: seq<Exit>, k: nat)
    ensures Folded(alpha, h).streak >= k <==> NoProfit(h, k)
  {
    FieldsAreFolds(alpha, h);
  }

  /** How long the symbol is banned after its latest exit: a day below a lifetime sum of -40, an hour below
      -20, half an hour for a loss of more than 12 or the third exit in a row without profit, five minutes
      for the second; otherwise it is not. */
  lemma BanIff(alpha: real, h: seq<Exit>, e: Exit)
    ensures var g := h + [e];
      BanSeconds(Folded(alpha, g), e.pnl) ==
        if SumPnl(g) < -40.0 then Some(86400.0)
        else if SumPnl(g) < -20.0 then Some(3600.0)
        else if e.pnl < -12.0 || NoProfit(g, 3) then Some(1800.0)
        else if NoProfit(g, 2) then Some(300.0)
        else None
  {
    var g := h + [e];
    FieldsAreFolds(alpha, g);
    StreakAtLeast(alpha, g, 3);
    StreakAtLeast(alpha, g, 2);
  }

  datatype Outcome = Ignored | Booked | LogRaised | Killed

  /** Clock readings, in the order they are taken. */
  datatype Clock = Clock(tradeMs: int, ban: real, cool: real)

  function LiveOf(sym: map<Base, SymbolState>): map<Base, Stats> {
    map b | b in sym :: sym[b].stats
  }

  /** What one exit leaves of its symbol. */
  function SymbolAfter(alpha: real, s: SymbolState, close: real, c: Clock, logOk: bool): SymbolState {
    if s.entrySide.None? || s.entryPrice <= 0.0 then s.(idle := true)
    else
      var pnl := PnlBp(s.entrySide.value, s.entryPrice, close);
      var st := AfterExit(alpha, s.stats, Exit(pnl, c.tradeMs));
      var ban := BanSeconds(st, pnl);
      var s1 := s.(stats := st, blacklistUntil := if ban.Some? then c.ban + ban.value else s.blacklistUntil);
      if logOk then s1.(idle := true, cooldownUntil := c.cool + if pnl < 0.0 then 60.0 else 10.0) else s1
  }

  /** What a position gained per unit: a long gains when the price rises, a short when it falls. */
  function GainPerUnit(side: Side, entry: real, close: real): real {
    if side == Long then close - entry else entry - close
  }

  lemma PnlInPrices(side: Side, entry: real, close: real, amount: real)
    requires entry > 0.0
    ensures var bp, gain := PnlBp(side, entry, close), GainPerUnit(side, entry, close);
      && bp * entry == 10000.0 * gain && Usd(bp, amount) * entry == amount * gain
      && (bp > 0.0 <==> gain > 0.0) && (bp < 0.0 <==> gain < 0.0)
  {
    var bp, x := PnlBp(side, entry, close), (close - entry) / entry;
    assert x * entry == close - entry;
    assert bp * entry == 10000.0 * GainPerUnit(side, entry, close);
    assert Usd(bp, amount) * entry == amount * (bp * entry) / 10000.0;
    SignsAgree(bp, entry, 10000.0 * GainPerUnit(side, entry, close));
  }

  lemma SignsAgree(x: real, p: real, product: real)
    requires p > 0.0 && x * p == product
    ensures (x > 0.0 <==> product > 0.0) && (x < 0.0 <==> product < 0.0)
  {}

  lemma PnlIs(side: Side, entry: real, close: real, pnl: real)
    requires entry > 0.0 && pnl * entry == 10000.0 * GainPerUnit(side, entry, close)
    ensures pnl == PnlBp(side, entry, close)
  {
    PnlInPrices(side, entry, close, 0.0);
    assert (PnlBp(side, entry, close) - pnl) * entry == 0.0;
  }

  /** What an exit with profit `pnl` leaves of the symbol: the records and the ban of the history `g` it ends,
      and, if the log record was written, an idle symbol that cools down for a minute after a loss and for ten
      seconds otherwise. */
  predicate Left(alpha: real, g: seq<Exit>, s: SymbolState, s1: SymbolState, c: Clock, logOk: bool, pnl: real) {
    var ban := BanSeconds(Folded(alpha, g), pnl);
    s1 == s.(stats := Folded(alpha, g),
             blacklistUntil := if ban.Some? then c.ban + ban.value else s.blacklistUntil,
             idle := if logOk then true else s.idle,
             cooldownUntil := if !logOk then s.cooldownUntil else c.cool + if pnl < 0.0 then 60.0 else 10.0)
  }

  lemma LeftByPnl(alpha: real, h: seq<Exit>, s: SymbolState, close: real, c: Clock, logOk: bool, pnl: real)
    requires s.entrySide.Some? && s.entryPrice > 0.0 && s.stats == Folded(alpha, h)
    requires pnl == PnlBp(s.entrySide.value, s.entryPrice, close)
    ensures Left(alpha, h + [Exit(pnl, c.tradeMs)], s, SymbolAfter(alpha, s, close, c, logOk), c, logOk, pnl)
  {
    var g := h + [Exit(pnl, c.tradeMs)];
    assert g[..|g| - 1] == h;
    assert Folded(alpha, g) == AfterExit(alpha, s.stats, Exit(pnl, c.tradeMs));
  }

  /** That is what it leaves when the symbol's records were those of the history before, the profit being the
      gain per unit in basis points of the entry price. */
  lemma ExitLeaves(alpha: real, h: seq<Exit>, s: SymbolState, close: real, c: Clock, logOk: bool, pnl: real)
    requires s.entrySide.Some? && s.entryPrice > 0.0 && s.stats == Folded(alpha, h)
    requires pnl * s.entryPrice == 10000.0 * GainPerUnit(s.entrySide.value, s.entryPrice, close)
    ensures Left(alpha, h + [Exit(pnl, c.tradeMs)], s, SymbolAfter(alpha, s, close, c, logOk), c, logOk, pnl)
  {
    PnlIs(s.entrySide.value, s.entryPrice, close, pnl);
    LeftByPnl(alpha, h, s, close, c, logOk, pnl);
  }

  lemma LiveOfUpdate(sym: map<Base, SymbolState>, b: Base, s: SymbolState)
    requires b in sym
    ensures LiveOf(sym[b := s]) == LiveOf(sym)[b := s.stats]
  {}

  class Bot {
    const alpha: real
    const killPnl: real
    var sym: map<Base, SymbolState>
    var realizedPnl: real
    var nWins: nat
    var file: map<Base, Stats>

    ghost function View(): Store
      reads this
    {
      Store(LiveOf(sym), file)
    }

    /** A start: every symbol of the list with empty state. */
    constructor (alpha: real, killPnl: real, symbols: set<Base>, file: map<Base, Stats>)
      ensures this.alpha == alpha && this.killPnl == killPnl && this.file == file && sym.Keys == symbols
      ensures View().live == Loaded(symbols, map[])
    {
      this.alpha, this.killPnl, this.file := alpha, killPnl, file;
      sym := map b | b in symbols :: SymbolState(true, None, 0.0, 0.0, 0.0, 0.0, FRESH);
      realizedPnl, nWins := 0.0, 0;
    }

    /** Books one exit. A failing trade log raises after the statistics were booked and before the
        symbol is released; the kill level is tested last. */
    method RecordExit(b: Base, close: real, c: Clock, logOk: bool) returns (out: Outcome)
      requires b in sym
      modifies this`sym, this`realizedPnl, this`nWins
      ensures sym == old(sym)[b := SymbolAfter(alpha, old(sym)[b], close, c, logOk)]
      ensures out.Ignored? <==> old(sym)[b].entrySide.None? || old(sym)[b].entryPrice <= 0.0
      ensures out.Ignored? ==> View() == old(View()) && realizedPnl == old(realizedPnl) && nWins == old(nWins)
      ensures !out.Ignored? ==>
        var s := old(sym)[b]; var pnl := PnlBp(s.entrySide.value, s.entryPrice, close);
        && View() == Apply(alpha, old(View()), Record(b, Exit(pnl, c.tradeMs)))
        && realizedPnl == old(realizedPnl) + Usd(pnl, s.entryAmount)
        && nWins - old(nWins) == sym[b].stats.wins - s.stats.wins
        && (out.LogRaised? <==> !logOk)
        && (logOk ==> (out.Killed? <==> realizedPnl < killPnl))
      ensures !out.Ignored? ==>
        var s := old(sym)[b]; var gain := GainPerUnit(s.entrySide.value, s.entryPrice, close);
        && (realizedPnl - old(realizedPnl)) * s.entryPrice == s.entryAmount * gain
        && nWins == old(nWins) + (if gain > 0.0 then 1 else 0)
    {
      var s := sym[b];
      if s.entrySide.None? || s.entryPrice <= 0.0 {
        LiveOfUpdate(sym, b, s.(idle := true));
        sym := sym[b := s.(idle := true)];
        return Ignored;
      }
      PnlInPrices(s.entrySide.value, s.entryPrice, close, s.entryAmount);
      var pnl := PnlBp(s.entrySide.value, s.entryPrice, close);
      realizedPnl := realizedPnl + Usd(pnl, s.entryAmount);
      var streak, wins := s.stats.streak, s.stats.wins;
      if pnl > 0.0 {
        nWins := nWins + 1;
        streak, wins := 0, wins + 1;
      } else {
        streak := streak + 1;
      }
      var st := Stats(Decay(alpha, s.stats.ema, pnl), s.stats.n + 1, wins, s.stats.total + pnl, streak, c.tradeMs);
      assert st == AfterExit(alpha, s.stats, Exit(pnl, c.tradeMs));
      var until := s.blacklistUntil;
      if st.total < -40.0 {
        until := c.ban + 86400.0;
      } else if st.total < -20.0 {
        until := c.ban + 3600.0;
      } else if pnl < -12.0 {
        until := c.ban + 1800.0;
      } else if streak >= 3 {
        until := c.ban + 1800.0;
      } else if streak >= 2 {
        until := c.ban + 300.0;
      }
      s := s.(stats := st, blacklistUntil := until);
      assert s == SymbolAfter(alpha, old(sym)[b], close, c, false);
      if !logOk {
        LiveOfUpdate(sym, b, s);
        sym := sym[b := s];
        return LogRaised;
      }
      s := s.(idle := true, cooldownUntil := c.cool + if pnl < 0.0 then 60.0 else 10.0);
      LiveOfUpdate(sym, b, s);
      sym := sym[b := s];
      out := if realizedPnl < killPnl then Killed else Booked;
    }

    /** The minute save: a new file with the symbols that have something to keep. */
    method SaveStats(writeOk: bool)
      modifies this`file
      ensures View() == Apply(alpha, old(View()), Save(writeOk))
    {
      var data: map<Base, Stats> := map[];
      var rest := sym.Keys;
      while exists b :: b in rest
        invariant rest <= sym.Keys
        invariant data == (map b | b in sym && b !in rest && !Skipped(sym[b].stats) :: sym[b].stats)
        decreases |rest|
      {
        var b :| b in rest;
        rest := rest - {b};
        if !Skipped(sym[b].stats) {
          data := data[b := sym[b].stats];
        }
      }
      if writeOk {
        file := data;
        assert data == SavedOf(LiveOf(sym));
      }
    }

    /** The start-up load: records of unlisted symbols are dropped, symbols without a record keep what
        they have. */
    method LoadStats()
      modifies this`sym
      ensures sym.Keys == old(sym.Keys)
      ensures forall b :: b in sym ==>
        sym[b] == old(sym)[b].(stats := if b in file then file[b] else old(sym)[b].stats)
    {
      var rest := file.Keys;
      while exists b :: b in rest
        invariant rest <= file.Keys && sym.Keys == old(sym.Keys)
        invariant forall b :: b in sym ==>
          sym[b] == old(sym)[b].(stats := if b in file && b !in rest then file[b] else old(sym)[b].stats)
        decreases |rest|
      {
        var b :| b in rest;
        rest := rest - {b};
        if b in sym {
          sym := sym[b := sym[b].(stats := file[b])];
        }
      }
    }
  }

  /** Starting the bot is the model's restart. */
  method Start(alpha: real, killPnl: real, symbols: set<Base>, file: map<Base, Stats>) returns (bot: Bot)
    ensures fresh(bot) && bot.alpha == alpha && bot.killPnl == killPnl
    ensures forall live :: bot.View() == Apply(alpha, Store(live, file), Restart(symbols))
  {
    bot := new Bot(alpha, killPnl, symbols, file);
    assert forall b :: b in bot.sym ==> bot.View().live[b] == FRESH;
    assert forall b :: b in bot.sym ==> bot.sym[b].stats == FRESH;
    bot.LoadStats();
    assert bot.View().live == Loaded(symbols, file);
  }
}
