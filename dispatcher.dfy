/** saveRecipientsToS3Async and saveRecipientsForSecTest. The original starts
    each test's task in a goroutine and receives its result from the channel
    before the next one starts, so tests run one after another; the model is
    the sequential loop that this amounts to. Tests are taken in list order in
    groups of WorkingGroupCount; every failure adds one to a counter that is
    never reset; after each group, a counter at or above MaxErrorsAllowed sets
    the error to return, but the loop goes on until every test was tried. */
module Dispatcher {
  import opened Results
  import opened Text
  import opened Records
  import opened Pagination
  import opened Api
  import opened Collectors

  const RecipientsKeyPrefix: string := "recipients/knowbe4_recipients_"
  const RecipientsKeySuffix: string := ".json"
  const WorkingGroupCount: nat := 5
  const MaxErrorsAllowed: nat := 5

  /** The object key of one test's recipients. */
  function RecipientsKey(pstId: int): string
  {
    RecipientsKeyPrefix + DecimalString(pstId) + RecipientsKeySuffix
  }

  /** Reads the test ID back from a recipients object key. */
  function ParseRecipientsKey(key: string): Option<int>
  {
    var p := |RecipientsKeyPrefix|;
    var q := |RecipientsKeySuffix|;
    if |key| >= p + q && key[..p] == RecipientsKeyPrefix && key[|key| - q..] == RecipientsKeySuffix
    then ParseDecimal(key[p..|key| - q])
    else None
  }

  lemma RecipientsKeyRoundTrip(pstId: int)
    ensures ParseRecipientsKey(RecipientsKey(pstId)) == Some(pstId)
  {
    var key := RecipientsKey(pstId);
    var p := |RecipientsKeyPrefix|;
    var q := |RecipientsKeySuffix|;
    assert key[..p] == RecipientsKeyPrefix;
    assert key[|key| - q..] == RecipientsKeySuffix;
    assert key[p..|key| - q] == DecimalString(pstId);
    DecimalRoundTrip(pstId);
  }

  /** Different tests never overwrite each other's recipients object. */
  lemma RecipientsKeysDistinct(a: int, b: int)
    requires a != b
    ensures RecipientsKey(a) != RecipientsKey(b)
  {
    RecipientsKeyRoundTrip(a);
    RecipientsKeyRoundTrip(b);
  }

  // ---------------------------------------------------------------
  // One test's task.

  datatype TaskError =
    | FetchFailed(pstId: int, cause: CollectError)
    | StoreFailed(pstId: int, bucket: string, key: string)

  /** What saveRecipientsForSecTest reports for one test: collect and flatten
      its recipients, then store them under the test's key. */
  ghost function RecipientTask(pstId: int, config: LambdaConfig, b: Backend): Option<TaskError>
    requires EventuallyStops(RecipientSource(config, pstId, b))
  {
    match Collected(RecipientSource(config, pstId, b))
    case Err(e) => Some(FetchFailed(pstId, e))
    case Ok(recipients) =>
      if b.upload(config.awsS3Bucket, RecipientsKey(pstId), RecipientsDocument(recipients)) then None
      else Some(StoreFailed(pstId, config.awsS3Bucket, RecipientsKey(pstId)))
  }

  method SaveRecipientsForSecTest(secTestId: int, config: LambdaConfig, b: Backend) returns (err: Option<TaskError>)
    requires EventuallyStops(RecipientSource(config, secTestId, b))
    ensures err == RecipientTask(secTestId, config, b)
    ensures err.Some? ==> err.value.pstId == secTestId
  {
    var recipients := GetAllRecipientsForSecurityTest(secTestId, config, b);
    if recipients.Err? {
      return Some(FetchFailed(secTestId, recipients.error));
    }
    var filename := RecipientsKeyPrefix + DecimalString(secTestId) + RecipientsKeySuffix;
    if !b.upload(config.awsS3Bucket, filename, RecipientsDocument(recipients.value)) {
      return Some(StoreFailed(secTestId, config.awsS3Bucket, filename));
    }
    return None;
  }

  // ---------------------------------------------------------------
  // Groups of tests and the error count.

  function PstIds(tests: seq<FlatSecurityTest>): seq<int>
  {
    seq(|tests|, i requires 0 <= i < |tests| => tests[i].pstId)
  }

  /** The groups the outer loop forms: consecutive runs of WorkingGroupCount
      IDs, then the rest. The last group is always shorter than
      WorkingGroupCount, and empty when the length is a multiple of it (the
      original then makes one more outer pass that starts no task). */
  function Batches(ids: seq<int>): seq<seq<int>>
    decreases |ids|
  {
    if |ids| < WorkingGroupCount then [ids]
    else [ids[..WorkingGroupCount]] + Batches(ids[WorkingGroupCount..])
  }

  function Concat(groups: seq<seq<int>>): seq<int>
  {
    if groups == [] then [] else groups[0] + Concat(groups[1..])
  }

  /** The groups, read in order, are the IDs: each test once, in list order. */
  lemma {:induction false} BatchesConcat(ids: seq<int>)
    ensures Concat(Batches(ids)) == ids
    decreases |ids|
  {
    if |ids| >= WorkingGroupCount {
      BatchesConcat(ids[WorkingGroupCount..]);
      var bs := Batches(ids);
      assert bs[1..] == Batches(ids[WorkingGroupCount..]);
      assert ids == ids[..WorkingGroupCount] + ids[WorkingGroupCount..];
    }
  }

  /** There are |ids| / 5 + 1 groups; all but the last hold exactly five IDs
      and the last holds fewer. */
  lemma {:induction false} BatchesShape(ids: seq<int>)
    ensures |Batches(ids)| == |ids| / WorkingGroupCount + 1
    ensures forall j :: 0 <= j < |Batches(ids)| - 1 ==> |Batches(ids)[j]| == WorkingGroupCount
    ensures |Batches(ids)[|Batches(ids)| - 1]| < WorkingGroupCount
    decreases |ids|
  {
    if |ids| >= WorkingGroupCount {
      var rest := ids[WorkingGroupCount..];
      BatchesShape(rest);
      assert |rest| / WorkingGroupCount + 1 == |ids| / WorkingGroupCount;
      var bs := Batches(ids);
      assert bs[1..] == Batches(rest);
      forall j | 0 <= j < |bs| - 1 ensures |bs[j]| == WorkingGroupCount {
        if j > 0 { assert bs[j] == Batches(rest)[j - 1]; }
      }
    }
  }

  ghost predicate AllStop(config: LambdaConfig, ids: seq<int>, b: Backend)
  {
    forall id :: id in ids ==> EventuallyStops(RecipientSource(config, id, b))
  }

  /** The task of test `pstId` fails (its recipient collection ends and the
      task reports an error). */
  ghost predicate TaskFails(pstId: int, config: LambdaConfig, b: Backend)
  {
    EventuallyStops(RecipientSource(config, pstId, b)) && RecipientTask(pstId, config, b).Some?
  }

  /** The number of tests among the first n of `ids` whose task fails. */
  ghost function FailuresBefore(config: LambdaConfig, ids: seq<int>, n: nat, b: Backend): nat
    requires n <= |ids|
    decreases n
  {
    if n == 0 then 0
    else FailuresBefore(config, ids, n - 1, b) + if TaskFails(ids[n - 1], config, b) then 1 else 0
  }

  /** The number of tests among `ids` whose task fails. */
  ghost function FailureCount(config: LambdaConfig, ids: seq<int>, b: Backend): nat
  {
    FailuresBefore(config, ids, |ids|, b)
  }

  lemma {:induction false} FailuresBeforeAppend(config: LambdaConfig, xs: seq<int>, ys: seq<int>, n: nat, b: Backend)
    requires n <= |ys|
    ensures FailuresBefore(config, xs + ys, |xs| + n, b)
         == FailureCount(config, xs, b) + FailuresBefore(config, ys, n, b)
    decreases n
  {
    if n == 0 {
      FailuresBeforePrefix(config, xs, xs + ys, |xs|, b);
    } else {
      FailuresBeforeAppend(config, xs, ys, n - 1, b);
      assert (xs + ys)[|xs| + n - 1] == ys[n - 1];
    }
  }

  /** The count over a prefix depends only on that prefix. */
  lemma {:induction false} FailuresBeforePrefix(config: LambdaConfig, xs: seq<int>, zs: seq<int>, n: nat, b: Backend)
    requires n <= |xs| && n <= |zs| && xs[..n] == zs[..n]
    ensures FailuresBefore(config, xs, n, b) == FailuresBefore(config, zs, n, b)
    decreases n
  {
    if n > 0 {
      assert xs[..n - 1] == zs[..n - 1] by {
        assert xs[..n - 1] == xs[..n][..n - 1];
        assert zs[..n - 1] == zs[..n][..n - 1];
      }
      assert xs[n - 1] == xs[..n][n - 1] == zs[..n][n - 1] == zs[n - 1];
      FailuresBeforePrefix(config, xs, zs, n - 1, b);
    }
  }

  /** The count is cumulative: failures of later groups add to earlier ones. */
  lemma FailureCountAppend(config: LambdaConfig, xs: seq<int>, ys: seq<int>, b: Backend)
    ensures FailureCount(config, xs + ys, b) == FailureCount(config, xs, b) + FailureCount(config, ys, b)
  {
    FailuresBeforeAppend(config, xs, ys, |ys|, b);
  }

  /** At most one failure per test. */
  lemma {:induction false} FailuresBeforeBound(config: LambdaConfig, ids: seq<int>, n: nat, b: Backend)
    requires n <= |ids|
    ensures FailuresBefore(config, ids, n, b) <= n
    decreases n
  {
    if n > 0 {
      FailuresBeforeBound(config, ids, n - 1, b);
    }
  }

  lemma FailureCountBound(config: LambdaConfig, ids: seq<int>, b: Backend)
    ensures FailureCount(config, ids, b) <= |ids|
  {
    FailuresBeforeBound(config, ids, |ids|, b);
  }

  /** When every task fails, every test is still tried and counted: the count
      is the number of tests, however far past the budget that goes. */
  lemma {:induction false} AllTasksFail(config: LambdaConfig, ids: seq<int>, n: nat, b: Backend)
    requires n <= |ids|
    requires AllStop(config, ids, b)
    requires forall id :: id in ids ==> RecipientTask(id, config, b).Some?
    ensures FailuresBefore(config, ids, n, b) == n
    decreases n
  {
    if n > 0 {
      assert ids[n - 1] in ids;
      AllTasksFail(config, ids, n - 1, b);
    }
  }

  lemma TakeOneMore(ids: seq<int>, start: nat, n: nat)
    requires start <= n < |ids|
    ensures ids[..n + 1] == ids[..n] + [ids[n]]
    ensures ids[start..n + 1] == ids[start..n] + [ids[n]]
  {
  }

  lemma BatchesStep(ids: seq<int>, start: nat)
    requires start + WorkingGroupCount <= |ids|
    ensures Batches(ids[start..])
         == [ids[start..start + WorkingGroupCount]] + Batches(ids[start + WorkingGroupCount..])
  {
    var rest := ids[start..];
    assert rest[..WorkingGroupCount] == ids[start..start + WorkingGroupCount];
    assert rest[WorkingGroupCount..] == ids[start + WorkingGroupCount..];
  }

  datatype AbortError = TooManyErrors(errCount: nat)

  /** saveRecipientsToS3Async, with the goroutine/channel pairs run in the
      order the original receives from them. */
  method SaveRecipientsToS3Async(config: LambdaConfig, secTests: seq<FlatSecurityTest>, b: Backend)
    returns (lastErr: Option<AbortError>, ghost attempted: seq<int>, ghost batches: seq<seq<int>>)
    requires AllStop(config, PstIds(secTests), b)
    ensures attempted == PstIds(secTests)
    ensures batches == Batches(PstIds(secTests))
    ensures lastErr ==
      if FailureCount(config, PstIds(secTests), b) >= MaxErrorsAllowed
      then Some(TooManyErrors(FailureCount(config, PstIds(secTests), b)))
      else None
  {
    ghost var ids := PstIds(secTests);
    lastErr := None;
    var errCount: nat := 0;
    var stIndex: int := -1;
    var stCount := |secTests|;
    assert |ids| == stCount;
    var allDone := false;
    attempted := [];
    batches := [];
    while true
      invariant -1 <= stIndex < stCount
      invariant !allDone
      invariant attempted == ids[..stIndex + 1]
      invariant batches + Batches(ids[stIndex + 1..]) == Batches(ids)
      invariant errCount == FailuresBefore(config, ids, stIndex + 1, b)
      invariant lastErr == if errCount >= MaxErrorsAllowed then Some(TooManyErrors(errCount)) else None
      decreases stCount - stIndex
    {
      ghost var start := stIndex + 1;
      ghost var errCountBefore := errCount;
      ghost var batch: seq<int> := [];
      var i := 0;
      while i < WorkingGroupCount
        invariant 0 <= i <= WorkingGroupCount
        invariant stIndex == start - 1 + i < stCount
        invariant !allDone
        invariant attempted == ids[..stIndex + 1]
        invariant batch == ids[start..stIndex + 1]
        invariant errCount == FailuresBefore(config, ids, stIndex + 1, b)
        invariant errCount >= errCountBefore
      {
        stIndex := stIndex + 1;
        if stIndex >= stCount {
          assert stIndex == |ids|;
          assert errCount == FailureCount(config, ids, b);
          allDone := true;
          break;
        }
        var nextId := secTests[stIndex].pstId;
        assert nextId == ids[stIndex] && nextId in ids;
        var newErr := SaveRecipientsForSecTest(nextId, config, b);
        assert newErr.Some? <==> TaskFails(nextId, config, b);
        assert FailuresBefore(config, ids, stIndex + 1, b)
            == FailuresBefore(config, ids, stIndex, b) + if TaskFails(nextId, config, b) then 1 else 0;
        TakeOneMore(ids, start, stIndex);
        attempted := attempted + [nextId];
        batch := batch + [nextId];
        if newErr.Some? {
          errCount := errCount + 1;
        }
        i := i + 1;
      }
      if allDone {
        assert errCount == FailureCount(config, ids, b);
        assert ids[start..] == batch && |batch| < WorkingGroupCount;
      } else {
        BatchesStep(ids, start);
      }
      batches := batches + [batch];
      if errCount >= MaxErrorsAllowed {
        lastErr := Some(TooManyErrors(errCount));
      }
      if allDone {
        break;
      }
    }
    assert attempted == ids;
  }
}
