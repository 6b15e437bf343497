/** Two datasets that spell the same text are one dataset to the protocol: a run in which more CPU is
    paid for than was declared. */
module OracleExamples {
  import opened Common
  import opened Sums
  import Token
  import opened Oracle
  import opened OracleCounting
  import opened OracleMachine

  // Account X is spelled a1 and account Y a12; the hash tells all texts of the run apart.
  const X: Name := 11
  const Y: Name := 12

  function Sha(text: string): Hash {
    if text == "a123" then 9 else if text == "23-0" then 2 else if text == "3-0" then 3 else 0
  }

  function Spell(n: Name): string {
    if n == X then "a1" else "a12"
  }

  const ENV: Env := Env(Sha, (hs: seq<Hash>) => 0, Spell)
  const TERMS: Inflation := Inflation(true, 0, 3, [5], 1)

  function TotalsOf(source: Name, cpu: int): Action {
    Totals(source, true, cpu, 0, 100, 100, 0, 0, TERMS, (21, 22))
  }

  /** Oracle 1 declares 23, oracles 2 and 3 declare 3 each and so agree; then 1 reports 23 for X and 2
      reports 3 for Y. */
  const COLLIDING_RUN: seq<Action> := [
    Activate(true),
    TotalsOf(1, 23), TotalsOf(2, 3), TotalsOf(3, 3),
    Usage(1, true, 1, [Metric(X, 23)], 0),
    Usage(2, true, 1, [Metric(Y, 3)], 0)]

  function Start(): State {
    Fresh(2, 10, 0, 1, Token.Created(EOSIO, 100))
  }

  function Told(cpu: int): Dataset {
    [Metric(21, cpu), Metric(22, 0)]
  }

  function Declares(cpu: int, h: Hash): Row {
    Row(cpu, 0, [h], 0, [Told(cpu)])
  }

  lemma Spelled()
    ensures TotalsText(23, 0) == "23-0" && TotalsText(3, 0) == "3-0"
    ensures Text(ENV, [Metric(X, 23)]) == "a123" && Text(ENV, [Metric(Y, 3)]) == "a123"
  {
    assert Decimal(23) == Decimal(2) + "3" && Decimal(2) == "2" && Decimal(3) == "3" && Decimal(0) == "0";
    assert [Metric(X, 23)][1..] == [] && [Metric(Y, 3)][1..] == [];
    assert "a1" + "23" + "" == "a123" && "a12" + "3" + "" == "a123";
    assert "23" + "-" + "0" == "23-0" && "3" + "-" + "0" == "3-0";
  }

  // The three oracles' rows after their totals.
  function ThreeRows(): map<Name, Row> {
    map[1 := Declares(23, 2), 2 := Declares(3, 3), 3 := Declares(3, 3)]
  }

  function One(rows: map<Name, Row>, n: Name, id: int, h: Hash): nat {
    if n in rows && Submitted(rows[n], id, h) then 1 else 0
  }

  lemma CountOfTwo(rows: map<Name, Row>, a: Name, b: Name, id: int, h: Hash)
    ensures Count(rows, [a, b], id, h) == One(rows, a, id, h) + One(rows, b, id, h)
  {
    assert [a, b][1..] == [b] && [b][1..] == [];
    assert Count(rows, [b], id, h) == One(rows, b, id, h) + Count(rows, [], id, h);
  }

  lemma CountOfThree(rows: map<Name, Row>, a: Name, b: Name, c: Name, id: int, h: Hash)
    ensures Count(rows, [a, b, c], id, h) == One(rows, a, id, h) + One(rows, b, id, h) + One(rows, c, id, h)
  {
    assert [a, b, c][1..] == [b, c];
    CountOfTwo(rows, b, c, id, h);
  }

  lemma ModesOfTotals()
    ensures ModeOf(map[1 := Declares(23, 2), 2 := Declares(3, 3)], [1, 2], 0, 2).count == 1
    ensures ModeOf(ThreeRows(), [1, 2, 3], 0, 3) == Mode(Some(3), 2)
  {
    hide Count;
    var two: map<Name, Row> := map[1 := Declares(23, 2), 2 := Declares(3, 3)];
    CountOfTwo(two, 1, 2, 0, 2);
    CountOfTwo(two, 1, 2, 0, 3);
    CountOfThree(ThreeRows(), 1, 2, 3, 0, 2);
    CountOfThree(ThreeRows(), 1, 2, 3, 0, 3);
    assert ModeOf(two, [1, 2], 0, 1) == Mode(Some(2), 1);
    assert ModeOf(ThreeRows(), [1, 2, 3], 0, 1) == Mode(Some(2), 1);
    assert ModeOf(ThreeRows(), [1, 2, 3], 0, 2) == Mode(Some(3), 2);
  }

  // ----- the states of the run

  function Issued(): Token.State {
    Token.State(EOSIO, 100, 3, map[EOSIO := 0, EOSIO_UPAY := 3])
  }

  function AfterTwo(): State {
    Start().(active := true, datasets := map[2 := Told(23), 3 := Told(3)],
             rows := map[1 := Declares(23, 2), 2 := Declares(3, 3)], oracles := [1, 2])
  }

  function Agreement(): State {
    AfterTwo().(rows := ThreeRows(), oracles := [1, 2, 3], inflationDone := true, totalCpu := 3, utility := 3,
                token := Issued(), issued := 3)
  }

  function Reports(cpu: int, h: Hash, d: Dataset): Row {
    Row(cpu, cpu, [h, 9], 0, [Told(cpu), d])
  }

  function FirstReport(): State {
    Agreement().(datasets := map[2 := Told(23), 3 := Told(3), 9 := [Metric(X, 23)]],
                 rows := ThreeRows()[1 := Reports(23, 2, [Metric(X, 23)])])
  }

  function PaidTwice(): State {
    FirstReport().(rows := FirstReport().rows[2 := Reports(3, 3, [Metric(Y, 3)])],
                   accountPay := map[X := 23], credited := 23, distributed := [1], paid := map[1 := Payout(9, 23)])
  }

  lemma DeclareTwo()
    ensures var s1 := Start().(active := true);
            Next(ENV, Next(ENV, s1, TotalsOf(1, 23)), TotalsOf(2, 3)) == AfterTwo()
  {
    hide ModeOf, Token.Act, TotalsText, Count;
    Spelled();
    ModesOfTotals();
    var s1 := Start().(active := true);
    var s2 := s1.(datasets := map[2 := Told(23)], rows := map[1 := Declares(23, 2)], oracles := [1]);
    assert WithTotals(ENV, s1, 1, 23, 0, 0, (21, 22)) == s2;
    assert Next(ENV, s1, TotalsOf(1, 23)) == s2;
    assert s2.datasets[3 := Told(3)] == AfterTwo().datasets;
    assert s2.rows[2 := Declares(3, 3)] == AfterTwo().rows;
    assert [1] + [2] == [1, 2];
    assert WithTotals(ENV, s2, 2, 3, 0, 0, (21, 22)) == AfterTwo();
  }

  lemma IssueThree(s: State)
    requires s.token == Token.Created(EOSIO, 100)
    ensures Issue(s, TERMS) == Some(s.(token := Issued(), utility := 3, issued := s.issued + 3))
  {
    hide AddPay;
    var minted: map<Name, int> := map[EOSIO := 3];
    assert Token.Credit(map[], EOSIO, 3) == minted;
    assert Token.Credit(minted[EOSIO := 0], EOSIO_UPAY, 3) == Issued().balances;
    assert Cut(0, 3, 100) == (0, 3);
    var t0 := Token.State(EOSIO, 100, 3, minted);
    assert Token.Act(s.token, Token.Issue(EOSIO, 3)) == Some(t0);
    assert Send(t0, EOSIO_BPAY, 0) == Some(t0);
    assert Token.Debit(minted, EOSIO, 3) == Some(minted[EOSIO := 0]);
    assert Send(t0, EOSIO_UPAY, 3) == Some(Issued());
  }

  lemma DeclareThird()
    ensures Next(ENV, AfterTwo(), TotalsOf(3, 3)) == Agreement()
  {
    hide ModeOf, Token.Act, TotalsText, Issue;
    Spelled();
    ModesOfTotals();
    var s := AfterTwo();
    var s1 := s.(rows := ThreeRows(), oracles := [1, 2, 3]);
    assert s.rows[3 := Declares(3, 3)] == ThreeRows();
    assert [1, 2] + [3] == [1, 2, 3];
    assert WithTotals(ENV, s, 3, 3, 0, 0, (21, 22)) == s1;
    IssueThree(s1.(totalCpu := 3));
  }

  lemma ModeOfFirst()
    ensures ModeOf(FirstReport().rows, [1, 2, 3], 1, 3).count == 1
    ensures ModeOf(PaidTwice().rows, [1, 2, 3], 1, 3) == Mode(Some(9), 2)
  {
    hide Count;
    var rows, later := FirstReport().rows, PaidTwice().rows;
    CountOfThree(rows, 1, 2, 3, 1, 9);
    CountOfThree(later, 1, 2, 3, 1, 9);
    assert ModeOf(rows, [1, 2, 3], 1, 1) == Mode(Some(9), 1);
    assert ModeOf(rows, [1, 2, 3], 1, 2) == Mode(Some(9), 1);
    assert ModeOf(later, [1, 2, 3], 1, 1) == Mode(Some(9), 2);
    assert ModeOf(later, [1, 2, 3], 1, 2) == Mode(Some(9), 2);
  }

  lemma ReportFirst()
    ensures Next(ENV, Agreement(), Usage(1, true, 1, [Metric(X, 23)], 0)) == FirstReport()
  {
    hide ModeOf, Text;
    Spelled();
    ModeOfFirst();
    assert Cpu([Metric(X, 23)]) == 23 by { assert [Metric(X, 23)][1..] == []; }
    assert Agreement().datasets[9 := [Metric(X, 23)]] == FirstReport().datasets;
    assert [2] + [9] == [2, 9];
    var d := [Metric(X, 23)];
    assert [Told(23)] + [d] == [Told(23), d];
    assert WithUsage(ENV, Agreement(), 1, d) == FirstReport();
    assert PayIfAgreed(FirstReport(), 1) == Some(FirstReport());
  }

  // The second report finds the first one's dataset under its hash.
  function BothReported(): State {
    FirstReport().(rows := FirstReport().rows[2 := Reports(3, 3, [Metric(Y, 3)])])
  }

  lemma RecordSecond()
    ensures Allocatable(FirstReport().rows[2], [Metric(Y, 3)])
    ensures WithUsage(ENV, FirstReport(), 2, [Metric(Y, 3)]) == BothReported()
  {
    hide Text;
    Spelled();
    var d := [Metric(Y, 3)];
    assert Cpu(d) == 3 by { assert d[1..] == []; }
    assert [3] + [9] == [3, 9] && [Told(3)] + [d] == [Told(3), d];
  }

  lemma PaySecond()
    ensures PayIfAgreed(BothReported(), 1) == Some(PaidTwice())
  {
    hide ModeOf;
    ModeOfFirst();
    var d := [Metric(X, 23)];
    assert d[1..] == [];
    assert Cpu(d) == 23 && PayAccounts(map[], d, 3, 3) == map[X := 23] && Shares(d, 3, 3) == 23;
    assert [] + [1] == [1];
  }

  lemma ReportSecond()
    ensures Next(ENV, FirstReport(), Usage(2, true, 1, [Metric(Y, 3)], 0)) == PaidTwice()
  {
    hide PayIfAgreed, WithUsage, PaidTwice, BothReported, Allocatable;
    RecordSecond();
    PaySecond();
  }

  // The run from its k-th event on.
  lemma RunFrom(s: State, k: nat, s': State)
    requires k < |COLLIDING_RUN| && IsRun(ENV, Next(ENV, s, COLLIDING_RUN[k]), COLLIDING_RUN[k + 1..], s')
    ensures IsRun(ENV, s, COLLIDING_RUN[k..], s')
  {
    hide Next;
    var acts := COLLIDING_RUN[k..];
    assert acts[0] == COLLIDING_RUN[k] && acts[1..] == COLLIDING_RUN[k + 1..];
    assert Ordinary(acts[0]);
  }

  lemma RunCollides()
    ensures IsRun(ENV, Start(), COLLIDING_RUN, PaidTwice())
  {
    hide Next, IsRun, Start, AfterTwo, Agreement, FirstReport, PaidTwice;
    var s1 := Start().(active := true);
    assert COLLIDING_RUN[6..] == [];
    RunEnds(PaidTwice());
    ReportSecond();
    RunFrom(FirstReport(), 5, PaidTwice());
    ReportFirst();
    RunFrom(Agreement(), 4, PaidTwice());
    DeclareThird();
    RunFrom(AfterTwo(), 3, PaidTwice());
    DeclareTwo();
    RunFrom(Next(ENV, s1, TotalsOf(1, 23)), 2, PaidTwice());
    RunFrom(s1, 1, PaidTwice());
    Activated();
    RunFrom(Start(), 0, PaidTwice());
    assert COLLIDING_RUN[0..] == COLLIDING_RUN;
  }

  lemma RunEnds(s: State)
    ensures IsRun(ENV, s, [], s)
  {
  }

  lemma Activated()
    ensures Next(ENV, Start(), Activate(true)) == Start().(active := true)
  {
  }

  lemma SumOfThree(m: map<Name, int>, a: Name, b: Name, c: Name)
    requires m.Keys == {a, b, c} && a != b && b != c && a != c
    ensures SumInt(m) == m[a] + m[b] + m[c]
  {
    hide SumInt;
    IntRemove(m, a);
    IntRemove(m - {a}, b);
    IntRemove(m - {a} - {b}, c);
    IntZero(m - {a} - {b} - {c});
  }

  lemma PaidAndDeclared()
    ensures var s := PaidTwice();
            !Faithful(s) && SumInt(PaidCpu(s.paid)) == 23 && SumInt(Declared(s.rows)) == 29
  {
    hide SumInt;
    var s := PaidTwice();
    SumOfThree(Declared(s.rows), 1, 2, 3);
    IntRemove(PaidCpu(s.paid), 1);
    IntZero(PaidCpu(s.paid) - {1});
    assert [Metric(X, 23)][1..] == [] && [Metric(Y, 3)][1..] == [];
    assert Submitted(s.rows[2], 1, s.paid[1].hash) && Cpu(s.rows[2].data[1]) < Cpu(s.datasets[s.paid[1].hash]);
  }

  /** Without the assumption on hashes the bound fails: in this run, threshold times the CPU paid for
      is 46 while 29 was declared, and accounts are credited with 23 of 3 utility tokens. */
  lemma CollisionPaysTwice()
    ensures exists s: State ::
              && IsRun(ENV, Start(), COLLIDING_RUN, s) && !Faithful(s)
              && s.threshold * SumInt(PaidCpu(s.paid)) == 46 && SumInt(Declared(s.rows)) == 29
              && s.credited == 23 && s.utility == 3
  {
    RunCollides();
    PaidAndDeclared();
    hide IsRun, SumInt, Faithful;
    var s := PaidTwice();
    assert s.threshold == 2 && s.credited == 23 && s.utility == 3;
  }
}
