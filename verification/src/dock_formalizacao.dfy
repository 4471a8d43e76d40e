/** The decision part of the Dock card-issuer formalisation tasks
    (handlers/dock_formalizacao.py): how a mobile number is split into
    area code and number, which adjustment type a withdrawal is posted
    with, the invoice due day an account is opened with, how many times a
    failing task is rescheduled, and when the instalment launch stops at
    once. The HTTP calls are left out; each run is described only by
    whether it raised. */
module DockFormalizacao {
  import opened Common
  import opened Codes

  // ---------------------------------------------------------------------
  // criar_individuo_dock: area code and number

  /** The digits of the phone; a trunk-prefix '0' is dropped, then the
      first two digits are the area code and the rest the number. */
  function PhoneSplit(phone: string): (r: (string, string))
    ensures AllDigits(r.0) && AllDigits(r.1) && |r.0| <= 2
    ensures var d := KeepChars(phone, DIGITS);
      r.0 + r.1 == (if StartsWith(d, "0") then d[1..] else d)
    ensures var d := KeepChars(phone, DIGITS);
      |d| >= 3 || (|d| == 2 && !StartsWith(d, "0")) ==> |r.0| == 2
  {
    var d := KeepChars(phone, DIGITS);
    if StartsWith(d, "0") then (Slice(d, 1, 3), Suffix(d, 3)) else (Prefix(d, 2), Suffix(d, 2))
  }

  /** Writing an area code and a number, with or without the trunk
      prefix and with any separators, splits back into the two. */
  lemma PhoneSplitRoundTrip(ddd: string, number: string)
    requires |ddd| == 2 && AllDigits(ddd) && ddd[0] != '0' && AllDigits(number)
    ensures PhoneSplit(ddd + number) == (ddd, number)
    ensures PhoneSplit("0" + ddd + number) == (ddd, number)
    ensures PhoneSplit("(" + ddd + ") " + number) == (ddd, number)
  {
    PhonePlain(ddd, number);
    PhoneTrunkPrefix(ddd, number);
    KeepParenthesised(ddd, number);
  }

  lemma PhonePlain(ddd: string, number: string)
    requires |ddd| == 2 && AllDigits(ddd) && ddd[0] != '0' && AllDigits(number)
    ensures KeepChars(ddd + number, DIGITS) == ddd + number
    ensures PhoneSplit(ddd + number) == (ddd, number)
  {
    var s := ddd + number;
    assert AllDigits(s) by {
      forall i | 0 <= i < |s| ensures IsDigit(s[i]) {
        if i >= 2 { assert s[i] == number[i - 2]; }
      }
    }
    KeepDigitsOfDigits(s);
    assert s[0] == ddd[0];
    assert s[..2] == ddd && s[2..] == number;
  }

  lemma PhoneTrunkPrefix(ddd: string, number: string)
    requires |ddd| == 2 && AllDigits(ddd) && AllDigits(number)
    ensures PhoneSplit("0" + ddd + number) == (ddd, number)
  {
    var z := "0" + ddd + number;
    assert AllDigits(z) by {
      forall i | 0 <= i < |z| ensures IsDigit(z[i]) {
        if 1 <= i < 3 { assert z[i] == ddd[i - 1]; }
        else if i >= 3 { assert z[i] == number[i - 3]; }
      }
    }
    KeepDigitsOfDigits(z);
    assert z[1..3] == ddd && z[3..] == number;
  }

  /** The separators of "(dd) number" are not digits and disappear. */
  lemma KeepParenthesised(ddd: string, number: string)
    requires |ddd| == 2 && AllDigits(ddd) && ddd[0] != '0' && AllDigits(number)
    ensures PhoneSplit("(" + ddd + ") " + number) == (ddd, number)
  {
    ParenthesisedDigits(ddd, number);
    PhonePlain(ddd, number);
  }

  /** Only the area code and the number survive digit filtering. */
  lemma ParenthesisedDigits(ddd: string, number: string)
    ensures KeepChars("(" + ddd + ") " + number, DIGITS) == KeepChars(ddd + number, DIGITS)
  {
    var open, close := "(", ") ";
    var tail := close + number;
    assert "(" + ddd + ") " + number == open + (ddd + tail);
    NoDigitsKept(open);
    NoDigitsKept(close);
    KeepCharsAppend(close, number);
    KeepCharsAppend(ddd, tail);
    KeepCharsAppend(ddd, number);
    KeepCharsAppend(open, ddd + tail);
  }

  /** Text without a digit keeps nothing. */
  lemma {:induction false} NoDigitsKept(s: string)
    requires forall i :: 0 <= i < |s| ==> !IsDigit(s[i])
    ensures KeepChars(s, DIGITS) == []
  {
    if |s| > 0 {
      assert s[0] !in DIGITS by { assert !IsDigit(s[0]); }
      NoDigitsKept(s[1..]);
    }
  }

  /** Keeping digits distributes over a concatenation. */
  lemma {:induction false} KeepCharsAppend(a: string, b: string)
    ensures KeepChars(a + b, DIGITS) == KeepChars(a, DIGITS) + KeepChars(b, DIGITS)
  {
    if |a| > 0 {
      assert (a + b)[1..] == a[1..] + b;
      KeepCharsAppend(a[1..], b);
    } else {
      assert a + b == b;
    }
  }

  // ---------------------------------------------------------------------
  // ajustes_financeiros: adjustment type

  const ADJUSTMENT_COMPLEMENTAR_DIGIMAIS: int := 21036
  const ADJUSTMENT_WITHDRAWAL_DIGIMAIS: int := 21038
  const ADJUSTMENT_COMPLEMENTAR: int := 20092
  const ADJUSTMENT_WITHDRAWAL: int := 20094

  /** The adjustment type of a withdrawal: one pair of ids for the
      DIGIMAIS deployment and another for the rest; within a pair, one for
      a complementary withdrawal and one for any other product. */
  function AdjustmentType(digimais: bool, produto: int): (id: int)
    ensures id in {ADJUSTMENT_COMPLEMENTAR_DIGIMAIS, ADJUSTMENT_WITHDRAWAL_DIGIMAIS,
                   ADJUSTMENT_COMPLEMENTAR, ADJUSTMENT_WITHDRAWAL}
    ensures id in {ADJUSTMENT_COMPLEMENTAR_DIGIMAIS, ADJUSTMENT_COMPLEMENTAR}
            <==> produto == PRODUTO_SAQUE_COMPLEMENTAR
    ensures id in {ADJUSTMENT_COMPLEMENTAR_DIGIMAIS, ADJUSTMENT_WITHDRAWAL_DIGIMAIS} <==> digimais
  {
    if digimais then
      (if produto == PRODUTO_SAQUE_COMPLEMENTAR then ADJUSTMENT_COMPLEMENTAR_DIGIMAIS
       else ADJUSTMENT_WITHDRAWAL_DIGIMAIS)
    else
      (if produto == PRODUTO_SAQUE_COMPLEMENTAR then ADJUSTMENT_COMPLEMENTAR
       else ADJUSTMENT_WITHDRAWAL)
  }

  /** The id tells the deployment and whether the product is a
      complementary withdrawal, and nothing else. */
  lemma AdjustmentTypeDetermines(a: bool, p: int, b: bool, q: int)
    ensures AdjustmentType(a, p) == AdjustmentType(b, q)
            <==> a == b && (p == PRODUTO_SAQUE_COMPLEMENTAR <==> q == PRODUTO_SAQUE_COMPLEMENTAR)
  {
  }

  // ---------------------------------------------------------------------
  // criar_conta_dock: due day

  const DEFAULT_DUE_DAY: int := 10

  /** The contract's due day as an integer; a missing or unreadable one
      becomes the 10th. */
  function DueDay(vencimento: Option<string>): (d: int)
    ensures vencimento.Some? && ParseInt(vencimento.value).Some? ==> d == ParseInt(vencimento.value).value
    ensures vencimento.None? || ParseInt(vencimento.value).None? ==> d == DEFAULT_DUE_DAY
  {
    if vencimento.None? then DEFAULT_DUE_DAY
    else match ParseInt(vencimento.value)
      case Some(n) => n
      case None => DEFAULT_DUE_DAY
  }

  /** A stored day is read back as itself. */
  lemma DueDayOfStoredDay(n: nat)
    ensures DueDay(Some(NatToString(n))) == n
  {
    ParseNatToString(n);
  }

  // ---------------------------------------------------------------------
  // Rescheduling a failing task

  /** `ajustes_financeiros` and `ajustes_financeiros_estorno`. */
  const ADJUSTMENT_RETRY_LIMIT: nat := 2
  /** `lancamento_saque_parcelado_fatura`. */
  const INSTALMENT_RETRY_LIMIT: nat := 4

  /** After a run with retry count `count`: the count the task is
      rescheduled with, if it is. */
  function Reschedule(raised: bool, count: nat, limit: nat): (r: Option<nat>)
    ensures r.Some? <==> raised && count < limit
    ensures r.Some? ==> r.value == count + 1
  {
    if raised && count < limit then Some(count + 1) else None
  }

  /** How many runs a chain started with retry count `count` makes;
      `raises[i]` is whether its i-th run raised. */
  function Runs(raises: seq<bool>, count: nat, limit: nat): (n: nat)
    ensures n <= |raises|
    decreases |raises|
  {
    if |raises| == 0 then 0
    else match Reschedule(raises[0], count, limit)
      case None => 1
      case Some(c) => 1 + Runs(raises[1..], c, limit)
  }

  /** A chain makes at most `limit - count + 1` runs; every run before the
      last one raised; the last one succeeded or used the last retry. */
  lemma {:induction false} RunsBounded(raises: seq<bool>, count: nat, limit: nat)
    requires count <= limit && |raises| > 0
    ensures 1 <= Runs(raises, count, limit) <= limit - count + 1
    ensures forall i :: 0 <= i < Runs(raises, count, limit) - 1 ==> raises[i]
    ensures var n := Runs(raises, count, limit);
      n == |raises| || !raises[n - 1] || count + n - 1 == limit
    decreases |raises|
  {
    if raises[0] && count < limit && |raises| > 1 {
      RunsBounded(raises[1..], count + 1, limit);
      var n := Runs(raises, count, limit);
      assert n == 1 + Runs(raises[1..], count + 1, limit);
      forall i | 0 <= i < n - 1 ensures raises[i] {
        if i > 0 { assert raises[i] == raises[1..][i - 1]; }
      }
    }
  }

  /** A task that keeps raising runs exactly `limit + 1` times: three runs
      for the adjustments, five for the instalment launch. */
  lemma {:induction false} AlwaysRaisingRuns(raises: seq<bool>, count: nat, limit: nat)
    requires count <= limit && |raises| >= limit - count + 1
    requires forall i :: 0 <= i < |raises| ==> raises[i]
    ensures Runs(raises, count, limit) == limit - count + 1
    decreases limit - count
  {
    if count < limit {
      AlwaysRaisingRuns(raises[1..], count + 1, limit);
    }
  }

  lemma RetryTotals(raises: seq<bool>)
    requires |raises| >= 5 && forall i :: 0 <= i < |raises| ==> raises[i]
    ensures Runs(raises, 0, ADJUSTMENT_RETRY_LIMIT) == 3
    ensures Runs(raises, 0, INSTALMENT_RETRY_LIMIT) == 5
  {
    AlwaysRaisingRuns(raises, 0, ADJUSTMENT_RETRY_LIMIT);
    AlwaysRaisingRuns(raises, 0, INSTALMENT_RETRY_LIMIT);
  }

  // ---------------------------------------------------------------------
  // lancamento_saque_parcelado_fatura: the 'rep' exit

  /** One run of the instalment launch: the status of the stored
      withdrawal return (`None` when there is none) and whether the launch
      call itself raised. */
  datatype LaunchRun = LaunchRun(retorno: Option<string>, launchRaises: bool)

  datatype LaunchOutcome = Stopped | Launched | Raised

  /** A withdrawal return marked 'rep' ends the task before any launch; a
      missing return raises on the status lookup, which the task treats
      like any other failure. */
  function Launch(run: LaunchRun): (o: LaunchOutcome)
    ensures o == Stopped <==> run.retorno == Some("rep")
    ensures o == Launched <==> run.retorno.Some? && run.retorno.value != "rep" && !run.launchRaises
  {
    if run.retorno.None? then Raised
    else if run.retorno.value == "rep" then Stopped
    else if run.launchRaises then Raised
    else Launched
  }

  function LaunchRaises(runs: seq<LaunchRun>): (r: seq<bool>)
    ensures |r| == |runs|
    ensures forall i :: 0 <= i < |runs| ==> (r[i] <==> Launch(runs[i]) == Raised)
  {
    if |runs| == 0 then [] else [Launch(runs[0]) == Raised] + LaunchRaises(runs[1..])
  }

  /** The number of runs of an instalment-launch chain. */
  function LaunchChain(runs: seq<LaunchRun>, count: nat): (n: nat)
    ensures n <= |runs|
  {
    Runs(LaunchRaises(runs), count, INSTALMENT_RETRY_LIMIT)
  }

  /** Once the withdrawal return is 'rep', the chain ends with that run:
      nothing after it is launched or rescheduled. */
  lemma {:induction false} RepEndsChain(runs: seq<LaunchRun>, count: nat, j: nat)
    requires j < |runs| && runs[j].retorno == Some("rep")
    ensures LaunchChain(runs, count) <= j + 1
    decreases j
  {
    var r := LaunchRaises(runs);
    if j > 0 && r[0] && count < INSTALMENT_RETRY_LIMIT {
      assert LaunchRaises(runs[1..]) == r[1..];
      RepEndsChain(runs[1..], count + 1, j - 1);
    }
  }
}
