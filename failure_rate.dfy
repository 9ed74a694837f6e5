/**
 * The failure-rate script: run the program a fixed number of times and count
 * the runs whose exit status is non-zero. The exit statuses are an input.
 */
module FailureRate {
  import opened Decimal

  /** Number of runs. */
  const TESTS: nat := 1000

  /** The number of non-zero exit statuses among `rets`. */
  function NonZero(rets: seq<int>): (n: nat)
    ensures n <= |rets|
  {
    if rets == [] then 0
    else NonZero(rets[..|rets| - 1]) + (if rets[|rets| - 1] != 0 then 1 else 0)
  }

  /** The line the script prints. */
  function Summary(failures: nat, tests: nat): string {
    "Failed " + NatToString(failures) + "/" + NatToString(tests) + " times"
  }

  /**
   * The counting loop: `rets[i]` is the exit status of the i-th run. Yields
   * the failure count and the summary line.
   */
  method CountFailures(rets: seq<int>) returns (failures: nat, summary: string)
    requires |rets| == TESTS
    ensures failures == NonZero(rets) && failures <= TESTS
    ensures summary == Summary(failures, TESTS)
  {
    failures := 0;
    var tests := TESTS;
    for i := 0 to tests
      invariant failures == NonZero(rets[..i])
      invariant failures <= i
    {
      assert rets[..i + 1][..i] == rets[..i];
      if rets[i] != 0 {
        failures := failures + 1;
      }
    }
    assert rets[..TESTS] == rets;
    summary := Summary(failures, tests);
  }

  /** Failures add up over consecutive batches of runs. */
  lemma {:induction false} NonZeroAppend(a: seq<int>, b: seq<int>)
    ensures NonZero(a + b) == NonZero(a) + NonZero(b)
  {
    if b != [] {
      var n := |b| - 1;
      NonZeroAppend(a, b[..n]);
      assert (a + b)[..|a + b| - 1] == a + b[..n];
      assert (a + b)[|a + b| - 1] == b[n];
    } else {
      assert a + b == a;
    }
  }

  /** No failures exactly when every run exits with status zero. */
  lemma {:induction false} NonZeroNone(rets: seq<int>)
    ensures NonZero(rets) == 0 <==> forall i :: 0 <= i < |rets| ==> rets[i] == 0
  {
    if rets != [] {
      var n := |rets| - 1;
      NonZeroNone(rets[..n]);
      if NonZero(rets) == 0 {
        forall i | 0 <= i < |rets| ensures rets[i] == 0 {
          if i < n {
            assert rets[..n][i] == rets[i];
          }
        }
      }
    }
  }

  /** Every run failed exactly when the count reaches the number of runs. */
  lemma {:induction false} NonZeroAll(rets: seq<int>)
    ensures NonZero(rets) == |rets| <==> forall i :: 0 <= i < |rets| ==> rets[i] != 0
  {
    if rets != [] {
      var n := |rets| - 1;
      NonZeroAll(rets[..n]);
      if NonZero(rets) == |rets| {
        forall i | 0 <= i < |rets| ensures rets[i] != 0 {
          if i < n {
            assert rets[..n][i] == rets[i];
          }
        }
      }
    }
  }

  /** The summary line names the failure count, which can be read back from it. */
  lemma SummaryNamesCount(failures: nat)
    ensures var s := Summary(failures, TESTS);
      s[..7] == "Failed " && ParseNat(s[7..|s| - 11]) == failures && s[|s| - 11..] == "/1000 times"
  {
    var s := Summary(failures, TESTS);
    var d := NatToString(failures);
    assert NatToString(1000) == "1000" by {
      assert NatToString(1) == "1";
      assert NatToString(10) == "10";
      assert NatToString(100) == "100";
    }
    assert s == "Failed " + d + "/1000 times";
    assert s[7..|s| - 11] == d;
    ParseNatToString(failures);
  }
}
