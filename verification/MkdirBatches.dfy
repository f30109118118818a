/** Creating remote directories in as few `mkdir -p` commands as the limits allow. */
module MkdirBatches {
  import opened Bytes

  const MAX_MKDIR_BATCH_PATHS := 64
  const MAX_MKDIR_BATCH_BYTES := 32 * 1024

  type Path = seq<Byte>

  function Weight(paths: seq<Path>): nat {
    if paths == [] then 0 else |paths[0]| + 1 + Weight(paths[1..])
  }

  /** What one command may carry: a path that is too long on its own still goes, alone. */
  predicate Legal(batch: seq<Path>) {
    1 <= |batch| <= MAX_MKDIR_BATCH_PATHS && (|batch| == 1 || Weight(batch) <= MAX_MKDIR_BATCH_BYTES)
  }

  ghost predicate IsSplit(paths: seq<Path>, split: seq<seq<Path>>) {
    Flatten(split) == paths && forall i :: 0 <= i < |split| ==> Legal(split[i])
  }

  /** The length of the longest legal batch at the front, searched from a length that is legal already. */
  function LongestFrom(paths: seq<Path>, length: nat): (longest: nat)
    requires 1 <= length <= |paths| && Legal(paths[..length])
    ensures length <= longest <= |paths| && Legal(paths[..longest])
    ensures longest < |paths| ==> !Legal(paths[..longest + 1])
    decreases |paths| - length
  {
    if length < |paths| && Legal(paths[..length + 1]) then LongestFrom(paths, length + 1) else length
  }

  function Greedy(paths: seq<Path>): seq<seq<Path>>
    decreases |paths|
  {
    if paths == [] then []
    else
      var length := LongestFrom(paths, 1);
      [paths[..length]] + Greedy(paths[length..])
  }

  lemma {:induction false} WeightConcat(left: seq<Path>, right: seq<Path>)
    ensures Weight(left + right) == Weight(left) + Weight(right)
  {
    if left == [] {
      assert left + right == right;
    } else {
      assert (left + right)[1..] == left[1..] + right;
      WeightConcat(left[1..], right);
    }
  }

  /** A non-empty stretch of a legal batch is legal. */
  lemma StretchIsLegal(batch: seq<Path>, from: nat, to: nat)
    requires Legal(batch) && from < to <= |batch|
    ensures Legal(batch[from..to])
  {
    assert batch == batch[..from] + (batch[from..to] + batch[to..]);
    WeightConcat(batch[..from], batch[from..to] + batch[to..]);
    WeightConcat(batch[from..to], batch[to..]);
  }

  /** No legal batch at the front is longer than the one taken. */
  lemma LongestIsMaximal(paths: seq<Path>, length: nat)
    requires 1 <= length <= |paths| && Legal(paths[..length])
    ensures length <= LongestFrom(paths, 1)
  {
    var longest := LongestFrom(paths, 1);
    if longest < length {
      assert paths[..length][0..longest + 1] == paths[..longest + 1];
      StretchIsLegal(paths[..length], 0, longest + 1);
    }
  }

  /** The weight of paths is their bytes and a separator for each. */
  lemma {:induction false} WeightMeaning(paths: seq<Path>)
    ensures Weight(paths) == |Flatten(paths)| + |paths|
  {
    if paths != [] {
      WeightMeaning(paths[1..]);
    }
  }

  /** Nothing is lost or reordered, and every batch has 1 to 64 paths and, unless it is a single path, at most
      32 KiB. */
  lemma BatchesAreWithinLimits(paths: seq<Path>)
    ensures Flatten(Greedy(paths)) == paths
    ensures forall i :: 0 <= i < |Greedy(paths)| ==>
              var batch := Greedy(paths)[i];
              1 <= |batch| <= 64 && (|batch| == 1 || |Flatten(batch)| + |batch| <= 32768)
  {
    hide Greedy, Legal;
    GreedyIsASplit(paths);
    forall i | 0 <= i < |Greedy(paths)|
      ensures var batch := Greedy(paths)[i];
              1 <= |batch| <= 64 && (|batch| == 1 || |Flatten(batch)| + |batch| <= 32768)
    {
      LegalMeaning(Greedy(paths)[i]);
    }
  }

  lemma LegalMeaning(batch: seq<Path>)
    ensures Legal(batch) <==> 1 <= |batch| <= 64 && (|batch| == 1 || |Flatten(batch)| + |batch| <= 32768)
  {
    WeightMeaning(batch);
  }

  lemma {:induction false} GreedyIsASplit(paths: seq<Path>)
    ensures IsSplit(paths, Greedy(paths))
    decreases |paths|
  {
    if paths != [] {
      var length := LongestFrom(paths, 1);
      GreedyIsASplit(paths[length..]);
      assert paths == paths[..length] + paths[length..];
    }
  }

  /** Starting later never costs batches: from any position of a split list, greedy needs no more than the split. */
  lemma {:induction false} GreedyStaysAhead(paths: seq<Path>, split: seq<seq<Path>>, from: nat)
    requires IsSplit(paths, split) && from <= |paths|
    ensures |Greedy(paths[from..])| <= |split|
    decreases |split|
  {
    if from == |paths| {
      return;
    }
    var first, later := split[0], split[1..];
    var rest := Flatten(later);
    assert paths == first + rest && IsSplit(rest, later);
    if from >= |first| {
      assert paths[from..] == rest[from - |first|..];
      GreedyStaysAhead(rest, later, from - |first|);
    } else {
      var tail := paths[from..];
      StretchIsLegal(first, from, |first|);
      assert tail[..|first| - from] == first[from..] == first[from..|first|];
      LongestIsMaximal(tail, |first| - from);
      var length := LongestFrom(tail, 1);
      assert tail[length..] == rest[from + length - |first|..];
      GreedyStaysAhead(rest, later, from + length - |first|);
    }
  }

  /** No split of the list into legal consecutive batches has fewer batches than the greedy one. */
  lemma GreedyIsOptimal(paths: seq<Path>, split: seq<seq<Path>>)
    requires IsSplit(paths, split)
    ensures |Greedy(paths)| <= |split|
  {
    assert paths[0..] == paths;
    GreedyStaysAhead(paths, split, 0);
  }

  /** The remote side; a command may fail. */
  class RemoteShell {
    var created: seq<seq<Path>>
    var failed: bool

    constructor ()
      ensures created == [] && !failed
    {
      created, failed := [], false;
    }

    method Mkdir(batch: seq<Path>) returns (ok: bool)
      modifies this
      ensures created == if ok then old(created) + [batch] else old(created)
      ensures failed <==> old(failed) || !ok
    {
      ok := *;
      if ok {
        created := created + [batch];
      } else {
        failed := true;
      }
    }
  }

  /** `ensure_remote_dirs`: the greedy batches in order, up to the first command that fails. */
  method EnsureRemoteDirs(shell: RemoteShell, paths: seq<Path>) returns (ok: bool)
    modifies shell
    ensures ok ==> shell.created == old(shell.created) + Greedy(paths)
    ensures !ok ==> exists k :: 0 <= k < |Greedy(paths)| && shell.created == old(shell.created) + Greedy(paths)[..k]
    ensures shell.failed <==> old(shell.failed) || !ok
  {
    hide LongestFrom, Legal, Weight;
    var start := 0;
    ghost var done := 0;
    assert paths[0..] == paths;
    while start < |paths|
      invariant 0 <= start <= |paths| && done <= |Greedy(paths)| && shell.failed == old(shell.failed)
      invariant Greedy(paths)[done..] == Greedy(paths[start..])
      invariant shell.created == old(shell.created) + Greedy(paths)[..done]
    {
      var end := NextBatch(paths, start);
      var batch := paths[start..end];
      NextGreedyBatch(paths, start, end, done);
      ok := shell.Mkdir(batch);
      if !ok {
        return;
      }
      done := done + 1;
      start := end;
    }
    assert paths[start..] == [];
    assert Greedy(paths)[..done] == Greedy(paths);
    return true;
  }

  lemma NextGreedyBatch(paths: seq<Path>, start: nat, end: nat, done: nat)
    requires start < end <= |paths| && end - start == LongestFrom(paths[start..], 1)
    requires done <= |Greedy(paths)| && Greedy(paths)[done..] == Greedy(paths[start..])
    ensures done < |Greedy(paths)| && Greedy(paths)[..done + 1] == Greedy(paths)[..done] + [paths[start..end]]
    ensures Greedy(paths)[done + 1..] == Greedy(paths[end..])
  {
    hide LongestFrom, Legal, Weight;
    var all, rest := Greedy(paths), paths[start..];
    assert rest[..end - start] == paths[start..end] && rest[end - start..] == paths[end..];
    assert Greedy(rest) == [paths[start..end]] + Greedy(paths[end..]);
    assert all[done] == all[done..][0] && all[done + 1..] == all[done..][1..];
  }

  /** The inner loop: adds paths while there is room for them. */
  method NextBatch(paths: seq<Path>, start: nat) returns (end: nat)
    requires start < |paths|
    ensures start < end <= |paths| && end - start == LongestFrom(paths[start..], 1)
  {
    ghost var rest := paths[start..];
    end := start;
    var bytes := 0;
    assert Weight(rest[..0]) == 0;
    FirstIsLegal(rest);
    while end < |paths| && end - start < MAX_MKDIR_BATCH_PATHS
      invariant start <= end <= |paths| && bytes == Weight(rest[..end - start])
      invariant end > start ==> Legal(rest[..end - start])
      invariant end > start ==> LongestFrom(rest, end - start) == LongestFrom(rest, 1)
    {
      var next := |paths[end]| + 1;
      ghost var length := end - start;
      WeightSnoc(rest, length);
      if end > start && bytes + next > MAX_MKDIR_BATCH_BYTES {
        break;
      }
      bytes := bytes + next;
      end := end + 1;
    }
  }

  lemma FirstIsLegal(paths: seq<Path>)
    requires paths != []
    ensures Legal(paths[..1])
  {
  }

  lemma WeightSnoc(paths: seq<Path>, length: nat)
    requires length < |paths|
    ensures Weight(paths[..length + 1]) == Weight(paths[..length]) + |paths[length]| + 1
  {
    assert paths[..length + 1] == paths[..length] + [paths[length]];
    WeightConcat(paths[..length], [paths[length]]);
    var last: seq<Path> := [paths[length]];
    assert last[1..] == [];
  }
}
