/**
 * HealthDataSampleArrayBuilder: the result builder that assembles a list
 * of samples from single samples and optionally included groups.
 */
module SampleArrayBuilder {
  import opened Wrappers
  import opened HealthDataSamples

  /** The number of samples in all components together. */
  function TotalLength(components: seq<seq<HealthDataSample>>): nat
  {
    if |components| == 0 then 0
    else |components[0]| + TotalLength(components[1..])
  }

  /**
   * `buildBlock`: the components flattened into one list, in order. A
   * sample is in the result exactly when it is in some component.
   */
  function BuildBlock(components: seq<seq<HealthDataSample>>): (r: seq<HealthDataSample>)
    ensures |r| == TotalLength(components)
    ensures forall s :: s in r <==> exists i :: 0 <= i < |components| && s in components[i]
  {
    if |components| == 0 then []
    else components[0] + BuildBlock(components[1..])
  }

  /** `buildExpression`: a single sample becomes a one-element list. */
  function BuildExpression(expression: HealthDataSample): (r: seq<HealthDataSample>)
    ensures |r| == 1 && r[0] == expression
  {
    [expression]
  }

  /** `buildOptional`: an absent group contributes no samples, a present one itself. */
  function BuildOptional(group: Option<seq<HealthDataSample>>): (r: seq<HealthDataSample>)
    ensures group.None? ==> r == []
    ensures group.Some? ==> r == group.value
  {
    match group
    case None => []
    case Some(samples) => samples
  }

  /** Building a block of two runs of components concatenates their results. */
  lemma {:induction false} BuildBlockAppend(a: seq<seq<HealthDataSample>>, b: seq<seq<HealthDataSample>>)
    ensures BuildBlock(a + b) == BuildBlock(a) + BuildBlock(b)
  {
    if |a| == 0 {
      assert a + b == b;
    } else {
      assert (a + b)[1..] == a[1..] + b;
      BuildBlockAppend(a[1..], b);
    }
  }

  /** The length of the block of two runs of components adds up. */
  lemma {:induction false} TotalLengthAppend(a: seq<seq<HealthDataSample>>, b: seq<seq<HealthDataSample>>)
    ensures TotalLength(a + b) == TotalLength(a) + TotalLength(b)
  {
    BuildBlockAppend(a, b);
  }

  /**
   * Order: sample j of component i sits in the result right after all
   * samples of the components before it.
   */
  lemma {:induction false} BuildBlockAt(components: seq<seq<HealthDataSample>>, i: nat, j: nat)
    requires i < |components| && j < |components[i]|
    ensures TotalLength(components[..i]) + j < |BuildBlock(components)|
    ensures BuildBlock(components)[TotalLength(components[..i]) + j] == components[i][j]
  {
    if i == 0 {
      assert components[..i] == [];
    } else {
      BuildBlockAt(components[1..], i - 1, j);
      assert components[..i] == [components[0]] + components[1..][..i - 1];
      TotalLengthAppend([components[0]], components[1..][..i - 1]);
      assert TotalLength([components[0]]) == |components[0]|;
    }
  }

  /** A block of one component is that component. */
  lemma BuildBlockSingle(samples: seq<HealthDataSample>)
    ensures BuildBlock([samples]) == samples
  {
  }

  /** A block of four components is their concatenation. */
  lemma BuildBlockOfFour(a: seq<HealthDataSample>, b: seq<HealthDataSample>, c: seq<HealthDataSample>,
                         d: seq<HealthDataSample>)
    ensures BuildBlock([a, b, c, d]) == a + b + c + d
  {
    assert [a, b, c, d] == [a] + [b] + [c] + [d];
    BuildBlockAppend([a] + [b] + [c], [d]);
    BuildBlockAppend([a] + [b], [c]);
    BuildBlockAppend([a], [b]);
    BuildBlockSingle(a);
    BuildBlockSingle(b);
    BuildBlockSingle(c);
    BuildBlockSingle(d);
  }

  /** A block of five components is their concatenation. */
  lemma BuildBlockOfFive(a: seq<HealthDataSample>, b: seq<HealthDataSample>, c: seq<HealthDataSample>,
                         d: seq<HealthDataSample>, e: seq<HealthDataSample>)
    ensures BuildBlock([a, b, c, d, e]) == a + b + c + d + e
  {
    assert [a, b, c, d, e] == [a, b, c, d] + [e];
    BuildBlockAppend([a, b, c, d], [e]);
    BuildBlockOfFour(a, b, c, d);
    BuildBlockSingle(e);
  }

  /**
   * Flattening with a skipped group: a single sample, a false guard and a
   * nested block of two samples give the three samples in order.
   */
  lemma FlattenWithSkippedGroup(a: HealthDataSample, b: HealthDataSample, c: HealthDataSample)
    ensures BuildBlock([BuildExpression(a), BuildOptional(None), BuildBlock([BuildExpression(b), BuildExpression(c)])])
            == [a, b, c]
  {
    var inner := [BuildExpression(b), BuildExpression(c)];
    assert inner[1..][1..] == [];
    assert BuildBlock(inner) == [b, c];
    var outer := [BuildExpression(a), BuildOptional(None), [b, c]];
    assert outer[1..][1..] == [[b, c]];
    BuildBlockSingle([b, c]);
    assert BuildBlock(outer[1..]) == [] + [b, c];
    assert BuildBlock(outer) == [a] + [b, c];
  }
}
