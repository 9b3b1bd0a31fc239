/**
 * `insertWithSchemaMatch`: a row is offered to a table in several shapes ("variants"), one after
 * another, until one insert succeeds. The inserter is replaced by the sequence of its answers:
 * the k-th insert made gets `answers[k]`, None for success and Some(e) for the error e.
 */
module InsertMatch {
  import opened JsText

  /** A payload value: `undefined`, or a defined value (null included). */
  datatype Field<V> = Undefined | Defined(value: V)

  /** What the call ends with: it returns, or throws the last error, or throws its own error. */
  datatype InsertOutcome<E> = Inserted | Failed(error: E) | NothingInserted(message: string)

  /**
   * `Object.fromEntries(Object.entries(payload).filter(([, value]) => value !== undefined))`:
   * the defined entries, in order.
   */
  function Filtered<V>(payload: seq<(string, Field<V>)>): (r: seq<(string, V)>)
    ensures |r| <= |payload|
  {
    if payload == [] then []
    else
      var (key, field) := payload[0];
      (if field.Defined? then [(key, field.value)] else []) + Filtered(payload[1..])
  }

  /** Exactly the defined entries are kept, with their values. */
  lemma {:induction false} FilteredEntries<V>(payload: seq<(string, Field<V>)>, key: string, v: V)
    ensures (key, v) in Filtered(payload) <==> (key, Defined(v)) in payload
  {
    if payload != [] {
      FilteredEntries(payload[1..], key, v);
      var (k0, f0) := payload[0];
      var head: seq<(string, V)> := if f0.Defined? then [(k0, f0.value)] else [];
      assert Filtered(payload) == head + Filtered(payload[1..]);
      assert payload == [payload[0]] + payload[1..];
      assert (key, v) in head <==> payload[0] == (key, Defined(v));
    }
  }

  /** A variant all of whose values are undefined filters to nothing. */
  lemma {:induction false} AllUndefinedFiltersToNothing<V>(payload: seq<(string, Field<V>)>)
    requires forall k :: 0 <= k < |payload| ==> payload[k].1.Undefined?
    ensures Filtered(payload) == []
  {
    if payload != [] {
      AllUndefinedFiltersToNothing(payload[1..]);
    }
  }

  /** The payloads that would be sent, in order: the variants that are not empty once filtered. */
  function Candidates<V>(variants: seq<seq<(string, Field<V>)>>): (r: seq<seq<(string, V)>>)
    ensures |r| <= |variants|
    ensures forall k :: 0 <= k < |r| ==> r[k] != []
  {
    CandidatesFrom(variants, 0)
  }

  /** The candidates among the variants from position `i` on. */
  function CandidatesFrom<V>(variants: seq<seq<(string, Field<V>)>>, i: nat): (r: seq<seq<(string, V)>>)
    requires i <= |variants|
    ensures |r| <= |variants| - i
    ensures forall k :: 0 <= k < |r| ==> r[k] != []
    decreases |variants| - i
  {
    if i == |variants| then []
    else (if Filtered(variants[i]) != [] then [Filtered(variants[i])] else []) + CandidatesFrom(variants, i + 1)
  }

  lemma PrefixOfAppend<T>(a: seq<T>, b: seq<T>)
    ensures (a + b)[..|a|] == a
  {
  }

  /** `new Error(`No se pudo insertar en ${table}`)`. */
  function NoInsertMessage(table: string): string
  {
    "No se pudo insertar en " + table
  }

  /**
   * How many inserts are made when `n` payloads are offered and the k-th insert answers
   * `answers[k]`: one per payload, up to and including the first that succeeds.
   */
  function Tries<E>(answers: seq<Option<E>>, n: nat): (t: nat)
    requires n <= |answers|
    ensures t <= n
    decreases n
  {
    if n == 0 then 0 else if answers[0].None? then 1 else 1 + Tries(answers[1..], n - 1)
  }

  /** After `m` failures, the tries are those `m` and the tries of the remaining answers. */
  lemma {:induction false} TriesAfterFailures<E>(answers: seq<Option<E>>, n: nat, m: nat)
    requires m <= n <= |answers|
    requires forall k :: 0 <= k < m ==> answers[k].Some?
    ensures Tries(answers, n) == m + Tries(answers[m..], n - m)
  {
    if m > 0 {
      TriesAfterFailures(answers[1..], n - 1, m - 1);
      assert answers[1..][m - 1..] == answers[m..];
    }
  }

  /**
   * The inserts stop at the first success: every insert before the last failed, and fewer
   * inserts than payloads means the last one succeeded. Something is offered whenever there is
   * a payload.
   */
  lemma {:induction false} TriesStopAtFirstSuccess<E>(answers: seq<Option<E>>, n: nat)
    requires n <= |answers|
    ensures n > 0 ==> Tries(answers, n) > 0
    ensures forall k :: 0 <= k < Tries(answers, n) - 1 ==> answers[k].Some?
    ensures 0 < Tries(answers, n) < n ==> answers[Tries(answers, n) - 1].None?
  {
    if n > 0 && answers[0].Some? {
      TriesStopAtFirstSuccess(answers[1..], n - 1);
      var t := Tries(answers[1..], n - 1);
      forall k | 0 <= k < t
        ensures answers[k].Some?
      {
        if k > 0 {
          assert answers[k] == answers[1..][k - 1];
        }
      }
    }
  }

  /** How the call ends after `t` inserts: by the last insert's answer, or its own error if none. */
  function OutcomeAfter<E>(table: string, answers: seq<Option<E>>, t: nat): (o: InsertOutcome<E>)
    requires t <= |answers|
  {
    if t == 0 then NothingInserted(NoInsertMessage(table))
    else if answers[t - 1].None? then Inserted
    else Failed(answers[t - 1].value)
  }

  /**
   * With `n` payloads offered, the row is inserted exactly when one of the `n` inserts
   * succeeds; the last error is thrown when they all fail, and the call's own error only when
   * there was nothing to offer.
   */
  lemma OutcomeOfTries<E>(table: string, answers: seq<Option<E>>, n: nat)
    requires n <= |answers|
    ensures var o := OutcomeAfter(table, answers, Tries(answers, n));
      (o.Inserted? <==> exists k :: 0 <= k < n && answers[k].None?)
      && (o.Failed? <==> n > 0 && forall k :: 0 <= k < n ==> answers[k].Some?)
      && (o.Failed? ==> o.error == answers[n - 1].value)
      && (o.NothingInserted? <==> n == 0)
      && (o.NothingInserted? ==> o.message == NoInsertMessage(table))
  {
    TriesStopAtFirstSuccess(answers, n);
    var t := Tries(answers, n);
    if (forall k :: 0 <= k < n ==> answers[k].Some?) {
      TriesAfterFailures(answers, n, n);
      assert t == n;
    } else if t == n && n > 0 {
      assert answers[n - 1].None?;
    }
  }

  /**
   * The loop of `insertWithSchemaMatch`. `sent` is the payloads given to the inserter, in order:
   * the candidates up to and including the first that succeeds. The call then ends as the
   * last insert answered, or with its own error when nothing was sent.
   */
  method InsertWithSchemaMatch<V, E>(table: string, variants: seq<seq<(string, Field<V>)>>, answers: seq<Option<E>>)
    returns (sent: seq<seq<(string, V)>>, outcome: InsertOutcome<E>)
    requires |answers| >= |variants|
    ensures sent == Candidates(variants)[..Tries(answers, |Candidates(variants)|)]
    ensures outcome == OutcomeAfter(table, answers, |sent|)
  {
    ghost var all := Candidates(variants);
    var lastError: Option<E> := None;
    sent := [];
    var i := 0;
    while i < |variants|
      invariant 0 <= i <= |variants|
      invariant |sent| <= i
      invariant all == sent + CandidatesFrom(variants, i)
      invariant forall k :: 0 <= k < |sent| ==> answers[k].Some?
      invariant lastError.None? <==> sent == []
      invariant lastError.Some? ==> lastError == answers[|sent| - 1]
    {
      var filtered := Filtered(variants[i]);
      if filtered != [] {
        var error := answers[|sent|];
        ghost var later := CandidatesFrom(variants, i + 1);
        assert CandidatesFrom(variants, i) == [filtered] + later;
        assert all == (sent + [filtered]) + later;
        if error.None? {
          TriesAfterFailures(answers, |all|, |sent|);
          assert answers[|sent|..][0] == error;
          sent := sent + [filtered];
          PrefixOfAppend(sent, later);
          return sent, Inserted;
        }
        sent := sent + [filtered];
        lastError := error;
      } else {
        assert CandidatesFrom(variants, i) == CandidatesFrom(variants, i + 1);
      }
      i := i + 1;
    }
    assert all == sent;
    TriesAfterFailures(answers, |all|, |all|);
    if lastError.Some? {
      outcome := Failed(lastError.value);
    } else {
      outcome := NothingInserted(NoInsertMessage(table));
    }
  }
}
