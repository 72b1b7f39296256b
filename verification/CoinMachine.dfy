/** The machine with its own font: the glyph tables it is built with. */
module CoinMachine {
  import opened BlindReader
  import opened Cells
  import opened CoinGaps
  import opened Debounce
  import opened Devices
  import opened DotMatrix
  import opened FontInk
  import opened Fonts
  import opened FunctionSelect
  import opened Glyphs
  import opened Gpio
  import opened Machine
  import opened MachineInputs
  import opened MachineRuns
  import opened Reports
  import opened Scroll

  function TheFont(): (f: Font)
    ensures InkFont(f)
  {
    FontHasInk();
    FONT
  }

  // ----- From the pins to the display -----

  /** The sensor that each thread opens. */
  function SensorOf(i: nat): Device
    requires i < 3
  {
    if i == 0 then Sens1 else if i == 1 then Sens2 else Sens3
  }

  /** The threads of a run read the levels that their sensors' pins have at that step. */
  predicate Wired(run: seq<Action>, levels: seq<Word>) {
    && |levels| == |run|
    && forall k | 0 <= k < |run| && run[k].ThreadStep? && run[k].i < 3 ::
      run[k].high <==> SensorPin(SensorOf(run[k].i)) in levels[k]
  }

  /** What a pin delivers in a run to thread `i`: its level whenever that thread reads. */
  function PinHeard(f: Font, s: State, run: seq<Action>, levels: seq<Word>, i: nat, pin: nat): seq<bool>
    requires ValidFont(f) && Shape(s) && |levels| == |run| && i < 3
  {
    if run == [] then []
    else
      var n := |run| - 1;
      var a := run[n];
      PinHeard(f, s, run[..n], levels[..n], i, pin)
      + if a.ThreadStep? && a.i == i && Reads(Run(f, s, run[..n]).threads[i]) then [pin in levels[n]] else []
  }

  lemma {:induction false} PinIsHeard(f: Font, s: State, run: seq<Action>, levels: seq<Word>, i: nat, pin: nat)
    requires ValidFont(f) && Shape(s) && Wired(run, levels) && i < 3 && pin == SensorPin(SensorOf(i))
    ensures PinHeard(f, s, run, levels, i, pin) == Heard(f, s, run, i)
  {
    if run != [] {
      PinIsHeard(f, s, run[..|run| - 1], levels[..|run| - 1], i, pin);
    }
  }

  /** The three threads hear pins 18, 7 and 8. */
  lemma ThreadsHearPins(f: Font, s: State, run: seq<Action>, levels: seq<Word>)
    requires ValidFont(f) && Shape(s) && Wired(run, levels)
    ensures PinHeard(f, s, run, levels, 0, 18) == Heard(f, s, run, 0)
    ensures PinHeard(f, s, run, levels, 1, 7) == Heard(f, s, run, 1)
    ensures PinHeard(f, s, run, levels, 2, 8) == Heard(f, s, run, 2)
  {
    PinIsHeard(f, s, run, levels, 0, 18);
    PinIsHeard(f, s, run, levels, 1, 7);
    PinIsHeard(f, s, run, levels, 2, 8);
  }

  /**
    End to end, for every interleaving: what the money report of a run shows, read off the
    display's rows with the machine's glyph tables, is the face value of the coins that went
    past the sensors: 500 for each on pin 18, 100 on pin 7, 50 on pin 8, each coin high for one
    to seven samples, those of a sensor far enough apart, with any low samples around them.
   */
  lemma MoneyShownIsMoneyInserted(
      s: State, run: seq<Action>, levels: seq<Word>, r: Report, a: nat, b: nat, c: nat)
    requires Init(s) && Shape(s) && Wired(run, levels) && r in Run(TheFont(), s, run).reports && r.kind == Money
    requires FromCoins(PinHeard(TheFont(), s, run, levels, 0, 18), a)
    requires FromCoins(PinHeard(TheFont(), s, run, levels, 1, 7), b)
    requires FromCoins(PinHeard(TheFont(), s, run, levels, 2, 8), c)
    ensures |r.reps| > 0 && ShownMoney(TheFont(), Read(r)) == Some(500 * a + 100 * b + 50 * c)
  {
    ThreadsHearPins(TheFont(), s, run, levels);
    DisplayShowsFaceValue(TheFont(), s, run, r, a, b, c);
  }

  // ----- Reading without knowing the repetitions -----

  /** What the debounce rule gives for the levels of the three sensors. */
  function Counted(f: Font, s: State, run: seq<Action>): (nat, nat, nat)
    requires ValidFont(f) && Shape(s)
  {
    (Coins(Heard(f, s, run, 0)), Coins(Heard(f, s, run, 1)), Coins(Heard(f, s, run, 2)))
  }

  lemma ReportIsSeen(f: Font, s: State, run: seq<Action>, r: Report)
    requires ValidFont(f) && Init(s) && Shape(s) && r in Run(f, s, run).reports
    ensures var x := Counted(f, s, run);
      AllShown(r.reps) && SeesAll(Rows(r.seen, RECEIVE), Image(f, Text(r.kind, x.0, x.1, x.2)), r.reps)
  {
    var t := Run(f, s, run);
    ReachableReport(f, s, run, r);
    ScrollIsSeen(ImageOf(f, r.kind, t.coins), r.reps);
  }

  /**
    Two finished reports, of one run or of two, that look the same row by row are of the same
    kind and say the same, however often each of their windows was shown.
   */
  lemma LooksTellReports(s: State, run: seq<Action>, r: Report, s': State, run': seq<Action>, r': Report)
    requires Init(s) && Shape(s) && r in Run(TheFont(), s, run).reports
    requires Init(s') && Shape(s') && r' in Run(TheFont(), s', run').reports
    requires Rows(r.seen, RECEIVE) == Rows(r'.seen, RECEIVE)
    ensures r.kind == r'.kind
    ensures SameMessage(r.kind, Counted(TheFont(), s, run), Counted(TheFont(), s', run'))
  {
    ReportIsSeen(TheFont(), s, run, r);
    ReportIsSeen(TheFont(), s', run', r');
    LooksDecide(TheFont(), Rows(r.seen, RECEIVE), r.kind, r'.kind,
                Counted(TheFont(), s, run), Counted(TheFont(), s', run'), r.reps, r'.reps);
  }
}
