/** Counting finished disks and turning their progress into the import's progress
    (pkg/utils/utils.go, disksImportProgress in the controller). */
module Progress {

  const PROGRESS_START := 0
  const PROGRESS_CREATING_VM := 5
  const PROGRESS_COPYING_DISKS := 10
  const PROGRESS_CONVERTING_GUEST := 70
  const PROGRESS_START_VM := 90
  const PROGRESS_DONE := 100
  const PROGRESS_COPY_DISK_RANGE := 0.65

  /** A disk's progress as CDI reports it. */
  type Percent = p: real | 0.0 <= p <= 100.0 witness 0.0

  // ---------------------------------------------------------------------------------------------
  // How many disks are done

  ghost function Done(m: map<string, bool>): set<string> {
    set k | k in m && m[k]
  }

  /** The map is walked in any order. */
  method CountImportedDataVolumes(dvsDone: map<string, bool>) returns (done: nat)
    ensures done == |Done(dvsDone)|
  {
    done := 0;
    var todo := dvsDone.Keys;
    ghost var counted: set<string> := {};
    while todo != {}
      invariant todo <= dvsDone.Keys
      invariant counted == set k | k in dvsDone && dvsDone[k] && k !in todo
      invariant done == |counted|
    {
      var k :| k in todo;
      todo := todo - {k};
      if dvsDone[k] {
        done := done + 1;
        counted := counted + {k};
      }
    }
    assert counted == Done(dvsDone);
  }

  /** Equal counts mean that every mapped disk is done, not just as many as there are. */
  lemma {:induction false} EqualCountsMeanAllDone(done: set<string>, mapped: set<string>)
    requires done <= mapped
    ensures |done| == |mapped| <==> done == mapped
  {
    assert mapped == done + (mapped - done);
    assert |mapped| == |done| + |mapped - done|;
  }

  // ---------------------------------------------------------------------------------------------
  // The progress of the disk stage

  ghost function Sum(m: map<string, Percent>): real
    decreases |m|
  {
    if m == map[] then 0.0
    else
      var k :| k in m;
      m[k] + Sum(m - {k})
  }

  /** The sum may be taken apart at any key, so it does not depend on the order of iteration; that of no
      disks is zero. */
  lemma {:induction false} SumAt(m: map<string, Percent>, k: string)
    requires k in m
    ensures Sum(m) == m[k] + Sum(m - {k}) && Sum(map[]) == 0.0
    decreases |m|
  {
    var j :| j in m && Sum(m) == m[j] + Sum(m - {j});
    if j != k {
      SumAt(m - {j}, k);
      SumAt(m - {k}, j);
      assert m - {j} - {k} == m - {k} - {j};
    }
  }

  lemma {:induction false} SumBounds(m: map<string, Percent>)
    ensures 0.0 <= Sum(m) <= 100.0 * |m| as real
    decreases |m|
  {
    if m != map[] {
      var k :| k in m;
      SumAt(m, k);
      SumBounds(m - {k});
    }
  }

  lemma {:induction false} SumMonotone(m: map<string, Percent>, n: map<string, Percent>)
    requires m.Keys <= n.Keys && forall k | k in m :: m[k] <= n[k]
    ensures Sum(m) <= Sum(n)
    decreases |n|
  {
    if n != map[] {
      var k :| k in n;
      SumAt(n, k);
      if k in m {
        SumAt(m, k);
        SumMonotone(m - {k}, n - {k});
      } else {
        assert m - {k} == m;
        SumMonotone(m, n - {k});
      }
    }
  }

  /** Truncation toward zero is flooring here, because progress is never negative. */
  ghost function DiskStage(m: map<string, Percent>, count: nat): int
    requires count > 0
  {
    PROGRESS_COPYING_DISKS + (Sum(m) / count as real * PROGRESS_COPY_DISK_RANGE).Floor
  }

  method DisksImportProgress(m: map<string, Percent>, count: nat) returns (progress: int)
    requires 0 < count && |m| <= count
    ensures progress == DiskStage(m, count)
    ensures PROGRESS_COPYING_DISKS <= progress <= 75
  {
    var sum := 0.0;
    var left := m;
    while left != map[]
      invariant sum + Sum(left) == Sum(m)
      decreases |left|
    {
      var k :| k in left;
      SumAt(left, k);
      sum := sum + left[k];
      left := left - {k};
    }
    DiskStageRange(m, count);
    progress := PROGRESS_COPYING_DISKS + (sum / count as real * PROGRESS_COPY_DISK_RANGE).Floor;
  }

  /** The stage is the number of whole hundredths in 10 and 65 hundredths of the average: one disk at half
      gives 42. */
  lemma DiskStageIs(m: map<string, Percent>, count: nat, n: int)
    requires count > 0
    ensures DiskStage(m, count) == n <==>
            100.0 * (n - 10) as real * count as real <= 65.0 * Sum(m) < 100.0 * (n - 9) as real * count as real
  {
    StageOf(Sum(m), count as real, n);
  }

  lemma StageOf(sum: real, c: real, n: int)
    requires c > 0.0
    ensures PROGRESS_COPYING_DISKS + (sum / c * PROGRESS_COPY_DISK_RANGE).Floor == n <==>
            100.0 * (n - 10) as real * c <= 65.0 * sum < 100.0 * (n - 9) as real * c
  {
    var scaled := sum / c * PROGRESS_COPY_DISK_RANGE;
    Scaled(sum, c, scaled);
    FloorIs(scaled, n - 10);
    Hundredfold((n - 10) as real, scaled, c, sum);
    Hundredfold((n - 9) as real, scaled, c, sum);
  }

  lemma Hundredfold(bound: real, scaled: real, c: real, sum: real)
    requires c > 0.0 && 100.0 * (scaled * c) == 65.0 * sum
    ensures bound <= scaled <==> 100.0 * bound * c <= 65.0 * sum
  {
    ScaleOrder(bound, scaled, c);
    assert 100.0 * bound * c == 100.0 * (bound * c);
  }

  lemma Scaled(sum: real, c: real, scaled: real)
    requires c > 0.0 && scaled == sum / c * PROGRESS_COPY_DISK_RANGE
    ensures 100.0 * (scaled * c) == 65.0 * sum
  {
    assert sum / c * c == sum;
    assert scaled * c == sum / c * c * 0.65;
  }

  lemma ScaleOrder(a: real, b: real, c: real)
    requires c > 0.0
    ensures a * c <= b * c <==> a <= b
  {
    assert a * c / c == a && b * c / c == b;
    if a * c <= b * c {
      DivideMonotone(a * c, b * c, c);
    } else {
      DivideMonotone(b * c, a * c, c);
      assert b <= a && (a == b ==> a * c == b * c);
    }
  }

  lemma FloorIs(x: real, n: int)
    ensures x.Floor == n <==> n as real <= x < (n + 1) as real
  {}

  /** Without any disk found the stage stands at its start. */
  lemma NoDisksStage(count: nat)
    requires count > 0
    ensures DiskStage(map[], count) == PROGRESS_COPYING_DISKS
  {
    assert Sum(map[]) == 0.0;
  }

  lemma DivideBounds(sum: real, count: real)
    requires count > 0.0 && 0.0 <= sum <= 100.0 * count
    ensures 0.0 <= sum / count <= 100.0
  {
    assert sum / count * count == sum;
  }

  lemma DiskStageRange(m: map<string, Percent>, count: nat)
    requires 0 < count && |m| <= count
    ensures PROGRESS_COPYING_DISKS <= DiskStage(m, count) <= 75
  {
    SumBounds(m);
    DivideBounds(Sum(m), count as real);
  }

  lemma DivideMonotone(a: real, b: real, count: real)
    requires count > 0.0 && a <= b
    ensures a / count <= b / count
  {
    assert a / count * count == a && b / count * count == b;
  }

  /** More progress on any disk, or a disk more, never lowers the stage. */
  lemma DiskStageMonotone(m: map<string, Percent>, n: map<string, Percent>, count: nat)
    requires 0 < count
    requires m.Keys <= n.Keys && forall k | k in m :: m[k] <= n[k]
    ensures DiskStage(m, count) <= DiskStage(n, count)
  {
    SumMonotone(m, n);
    DivideMonotone(Sum(m), Sum(n), count as real);
  }

  /** Disks that are all complete put the stage at its end. */
  lemma {:induction false} SumOfComplete(m: map<string, Percent>)
    requires forall k | k in m :: m[k] == 100.0
    ensures Sum(m) == 100.0 * |m| as real
    decreases |m|
  {
    if m != map[] {
      var k :| k in m;
      SumAt(m, k);
      SumOfComplete(m - {k});
    }
  }

  lemma DiskStageComplete(m: map<string, Percent>)
    requires m != map[] && forall k | k in m :: m[k] == 100.0
    ensures DiskStage(m, |m|) == 75
  {
    SumOfComplete(m);
    assert 100.0 * |m| as real / |m| as real == 100.0;
  }
}
