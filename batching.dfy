/** Pure specification of the bounded-batch delivery used by the Teams echo bot:
    how a list of listing lines is cut into messages of at most ten lines and how
    each message's text is rendered. */
module Batching {

  /** The largest number of lines one listing message carries. */
  const MaxBatchSize: nat := 10

  /** The token placed between two lines of one message (an HTML line break). */
  const Delimiter: string := "<br>"

  /** The concatenation of a list of batches, in order. */
  function Flatten<T>(batches: seq<seq<T>>): (r: seq<T>)
  {
    if |batches| == 0 then [] else batches[0] + Flatten(batches[1..])
  }

  /** True when every batch holds between 1 and n entries and every batch but the
      last holds exactly n: the shape the buffer-and-flush loop produces. */
  ghost predicate WellShaped<T>(batches: seq<seq<T>>, n: nat)
  {
    && (forall i :: 0 <= i < |batches| ==> 0 < |batches[i]| <= n)
    && (forall i :: 0 <= i < |batches| - 1 ==> |batches[i]| == n)
  }

  /** The input cut, front to back, into consecutive runs of n entries; the last run
      holds what is left over. */
  function Chunks<T>(s: seq<T>, n: nat): (r: seq<seq<T>>)
    requires n > 0
    decreases |s|
  {
    if |s| == 0 then []
    else if |s| <= n then [s]
    else [s[..n]] + Chunks(s[n..], n)
  }

  /** The sum of the lengths of the given strings. */
  function TotalLength(parts: seq<string>): nat
  {
    if |parts| == 0 then 0 else |parts[0]| + TotalLength(parts[1..])
  }

  /** The parts written one after another with sep between neighbours, as
      .NET's string.Join does: no separator before the first part or after the last. */
  function Join(sep: string, parts: seq<string>): (r: string)
    ensures |parts| == 1 ==> r == parts[0]
    ensures |r| == TotalLength(parts) + (if |parts| == 0 then 0 else |sep| * (|parts| - 1))
    ensures |parts| > 0 ==> r[..|parts[0]|] == parts[0]
  {
    if |parts| == 0 then ""
    else if |parts| == 1 then parts[0]
    else parts[0] + sep + Join(sep, parts[1..])
  }

  /** The message text of every batch, in order: the batch's lines joined with the
      delimiter. */
  function Render(batches: seq<seq<string>>): (r: seq<string>)
    ensures |r| == |batches|
    ensures forall i :: 0 <= i < |batches| ==> r[i] == Join(Delimiter, batches[i])
  {
    seq(|batches|, i requires 0 <= i < |batches| => Join(Delimiter, batches[i]))
  }

  /** The texts of the messages a listing of the given lines is sent as. */
  function BatchMessages(lines: seq<string>): (r: seq<string>)
  {
    Render(Chunks(lines, MaxBatchSize))
  }

  // ---------------------------------------------------------------------------
  // Properties of the batching

  lemma {:induction false} FlattenAppend<T>(a: seq<seq<T>>, b: seq<seq<T>>)
    ensures Flatten(a + b) == Flatten(a) + Flatten(b)
    decreases |a|
  {
    if |a| > 0 {
      assert (a + b)[1..] == a[1..] + b;
      assert Flatten(a + b) == a[0] + Flatten(a[1..] + b);
      FlattenAppend(a[1..], b);
    } else {
      assert a + b == b;
    }
  }

  /** Concatenating the batches in order gives back the input: no entry is lost,
      duplicated or moved. */
  lemma {:induction false} ChunksFlatten<T>(s: seq<T>, n: nat)
    requires n > 0
    ensures Flatten(Chunks(s, n)) == s
    decreases |s|
  {
    if |s| > n {
      ChunksFlatten(s[n..], n);
      var r := Chunks(s, n);
      assert r[0] == s[..n] && r[1..] == Chunks(s[n..], n);
      assert s == s[..n] + s[n..];
    } else if |s| > 0 {
      assert Flatten([s]) == s + Flatten([s][1..]);
    }
  }

  /** Every batch holds between 1 and n entries, every batch but the last exactly n;
      there is no batch at all only for empty input. */
  lemma {:induction false} ChunksWellShaped<T>(s: seq<T>, n: nat)
    requires n > 0
    ensures WellShaped(Chunks(s, n), n)
    ensures |Chunks(s, n)| == 0 <==> |s| == 0
    decreases |s|
  {
    if |s| > n {
      ChunksWellShaped(s[n..], n);
      var r, rest := Chunks(s, n), Chunks(s[n..], n);
      assert r == [s[..n]] + rest;
      forall i | 0 < i < |r| ensures r[i] == rest[i - 1] {
      }
    }
  }

  /** The number of batches is the ceiling of |s| / n: zero for no input, and never a
      trailing empty batch when |s| is a multiple of n. */
  lemma {:induction false} ChunksCount<T>(s: seq<T>, n: nat)
    requires n > 0
    ensures |Chunks(s, n)| == (|s| + n - 1) / n
    decreases |s|
  {
    if |s| == 0 {
    } else if |s| <= n {
      DivBetween(|s| + n - 1, n, 1);
    } else {
      ChunksCount(s[n..], n);
      DivShift(|s| - 1, n);
    }
  }

  lemma DivBetween(x: nat, n: nat, q: nat)
    requires n > 0 && q * n <= x < (q + 1) * n
    ensures x / n == q
  {
    var d, r := x / n, x % n;
    assert x == d * n + r && r < n;
    if d < q {
      MulMonotone(d + 1, q, n);
    } else if d > q {
      MulMonotone(q + 1, d, n);
    }
  }

  lemma MulMonotone(a: nat, b: nat, n: nat)
    requires a <= b
    ensures a * n <= b * n
  {
    assert b * n == a * n + (b - a) * n;
  }

  lemma DivShift(x: nat, n: nat)
    requires n > 0
    ensures (x + n) / n == x / n + 1
  {
    var q, r := x / n, x % n;
    assert x == q * n + r;
    assert x + n == (q + 1) * n + r;
    DivBetween(x + n, n, q + 1);
  }

  /** The batches are the only well-shaped cut of s: whatever list of batches of at
      most n entries, all full but the last, concatenates back to s is Chunks(s, n).
      ChunksFewest adds that no cut into batches of at most n entries is shorter. */
  lemma {:induction false} ChunksUnique<T>(s: seq<T>, n: nat, batches: seq<seq<T>>)
    requires n > 0
    requires WellShaped(batches, n)
    requires Flatten(batches) == s
    ensures batches == Chunks(s, n)
    decreases |s|
  {
    if |batches| == 0 {
    } else if |batches| == 1 {
      assert Flatten(batches) == batches[0] + Flatten(batches[1..]);
      assert batches[0] == s;
    } else {
      var rest := batches[1..];
      assert Flatten(batches) == batches[0] + Flatten(rest);
      assert |batches[0]| == n;
      FlattenNonEmpty(rest, n);
      assert s[..n] == batches[0];
      assert s[n..] == Flatten(rest);
      assert WellShaped(rest, n) by {
        forall i | 0 <= i < |rest| ensures 0 < |rest[i]| <= n {
          assert rest[i] == batches[i + 1];
        }
        forall i | 0 <= i < |rest| - 1 ensures |rest[i]| == n {
          assert rest[i] == batches[i + 1];
        }
      }
      ChunksUnique(s[n..], n, rest);
      assert batches == [batches[0]] + rest;
    }
  }

  /** Batches of at most n entries hold at most n entries each in total. */
  lemma {:induction false} FlattenLength<T>(batches: seq<seq<T>>, n: nat)
    requires forall i :: 0 <= i < |batches| ==> |batches[i]| <= n
    ensures |Flatten(batches)| <= n * |batches|
    decreases |batches|
  {
    if |batches| > 0 {
      assert |batches[0]| <= n;
      FlattenLength(batches[1..], n);
      assert n * |batches| == n + n * |batches[1..]|;
    }
  }

  /** Chunks uses the fewest messages: any order-preserving cut of s into batches of
      at most n entries has at least as many batches. */
  lemma ChunksFewest<T>(s: seq<T>, n: nat, batches: seq<seq<T>>)
    requires n > 0
    requires forall i :: 0 <= i < |batches| ==> |batches[i]| <= n
    requires Flatten(batches) == s
    ensures |batches| >= |Chunks(s, n)|
  {
    FlattenLength(batches, n);
    ChunksCount(s, n);
    CeilDivAtMost(|s|, n, |batches|);
  }

  /** ceil(x / n) <= m whenever x <= n * m. */
  lemma CeilDivAtMost(x: nat, n: nat, m: nat)
    requires n > 0 && x <= n * m
    ensures (x + n - 1) / n <= m
  {
    var q, r := (x + n - 1) / n, (x + n - 1) % n;
    assert x + n - 1 == q * n + r;
    assert q * n < (m + 1) * n;
    MulLess(q, m + 1, n);
  }

  lemma MulLess(a: nat, b: nat, n: nat)
    requires a * n < b * n
    ensures a < b
  {
    if a >= b {
      MulMonotone(b, a, n);
    }
  }

  lemma FlattenNonEmpty<T>(batches: seq<seq<T>>, n: nat)
    requires |batches| > 0 && WellShaped(batches, n)
    ensures |Flatten(batches)| > 0
  {
    assert Flatten(batches) == batches[0] + Flatten(batches[1..]);
  }

  /** Splitting the input after a whole number of full batches splits the batches:
      the batches of a prefix of n entries are one full batch followed by the batches
      of the rest. */
  lemma ChunksFront<T>(s: seq<T>, n: nat)
    requires n > 0 && |s| >= n
    ensures Chunks(s, n) == [s[..n]] + Chunks(s[n..], n)
  {
    if |s| == n {
      assert s[n..] == [];
      assert s[..n] == s;
    }
  }

  /** The concrete cases the batching is known by: 23 lines give batches of 10, 10
      and 3; 10 lines give one batch; one line gives one batch; none give none. */
  lemma {:induction false} BatchScenarios<T>(s: seq<T>)
    ensures |s| == 23 ==> Chunks(s, 10) == [s[..10], s[10..20], s[20..]]
    ensures |s| == 10 ==> Chunks(s, 10) == [s]
    ensures |s| == 1 ==> Chunks(s, 10) == [s]
    ensures |s| == 0 ==> Chunks(s, 10) == []
  {
    if |s| == 23 {
      ChunksFront(s, 10);
      ChunksFront(s[10..], 10);
      assert s[10..][..10] == s[10..20];
      assert s[10..][10..] == s[20..];
    }
  }

  /** Every sent message text is its batch joined with the delimiter, and the texts
      come in batch order. */
  lemma BatchMessagesShape(lines: seq<string>)
    ensures |BatchMessages(lines)| == (|lines| + MaxBatchSize - 1) / MaxBatchSize
    ensures forall i :: 0 <= i < |BatchMessages(lines)| ==>
              BatchMessages(lines)[i] == Join(Delimiter, Chunks(lines, MaxBatchSize)[i])
  {
    ChunksCount(lines, MaxBatchSize);
  }

  /** Render distributes over concatenation of batch lists. */
  lemma RenderAppend(a: seq<seq<string>>, b: seq<seq<string>>)
    ensures Render(a + b) == Render(a) + Render(b)
  {
  }

  lemma RenderSnoc(a: seq<seq<string>>, b: seq<string>)
    ensures Render(a + [b]) == Render(a) + [Join(Delimiter, b)]
  {
    RenderAppend(a, [b]);
  }

  /** Full batches already cut off the front of the input do not change the cut:
      if the batches sent so far each hold n entries and together are the first k
      entries, the batches of the whole input are those followed by the batches of the
      rest. */
  lemma ChunksAfterFullBatches<T>(s: seq<T>, n: nat, full: seq<seq<T>>, k: nat)
    requires n > 0 && k <= |s|
    requires forall j :: 0 <= j < |full| ==> |full[j]| == n
    requires Flatten(full) == s[..k]
    ensures Chunks(s, n) == full + Chunks(s[k..], n)
  {
    var rest := Chunks(s[k..], n);
    var all := full + rest;
    ChunksWellShaped(s[k..], n);
    ChunksFlatten(s[k..], n);
    FlattenAppend(full, rest);
    assert s[..k] + s[k..] == s;
    assert WellShaped(all, n) by {
      forall j | 0 <= j < |all| ensures 0 < |all[j]| <= n {
        if j >= |full| {
          assert all[j] == rest[j - |full|];
        }
      }
      forall j | 0 <= j < |all| - 1 ensures |all[j]| == n {
        if j >= |full| {
          assert all[j] == rest[j - |full|];
        }
      }
    }
    ChunksUnique(s, n, all);
  }

  /** Appending one batch appends its entries to the concatenation. */
  lemma FlattenSnoc<T>(a: seq<seq<T>>, b: seq<T>)
    ensures Flatten(a + [b]) == Flatten(a) + b
  {
    FlattenAppend(a, [b]);
    assert Flatten([b]) == b + Flatten([b][1..]);
  }

  /** The joined text alone does not determine the batch: a line that itself contains
      the delimiter renders exactly like two lines. */
  lemma JoinLosesLineBoundaries(a: string, b: string)
    ensures Join(Delimiter, [a + Delimiter + b]) == Join(Delimiter, [a, b])
  {
    assert [a, b][1..] == [b];
  }
}
