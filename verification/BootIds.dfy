/** The boot counter that orders envelopes of different process runs: a number on disk, read
    and written at every start, where either access may fail. */
module BootIds {
  datatype Start = Start(readOk: bool, writeOk: bool)

  /** The number on disk and the one this process uses. */
  datatype Disk = Disk(stored: nat, boot: nat)

  const NO_FILE := Disk(0, 0)

  /** `next_boot_id` */
  function NextBoot(d: Disk, s: Start): Disk {
    var boot := (if s.readOk then d.stored else 0) + 1;
    Disk(if s.writeOk then boot else d.stored, boot)
  }

  function After(starts: seq<Start>): Disk {
    if starts == [] then NO_FILE else NextBoot(After(starts[..|starts| - 1]), starts[|starts| - 1])
  }

  /** Each process run gets a higher number than the one before. */
  ghost predicate Increasing(starts: seq<Start>) {
    forall n :: 0 <= n < |starts| ==> After(starts[..n]).boot < After(starts[..n + 1]).boot
  }

  /** Every restart can read the counter, and every run but the last could write it. */
  ghost predicate DiskWorks(starts: seq<Start>) {
    && (forall i :: 1 <= i < |starts| ==> starts[i].readOk)
    && (forall i :: 0 <= i < |starts| - 1 ==> starts[i].writeOk)
  }

  lemma {:induction false} DiskIsCurrent(starts: seq<Start>)
    requires DiskWorks(starts)
    ensures After(starts).boot == |starts|
    ensures starts != [] && starts[|starts| - 1].writeOk ==> After(starts).stored == |starts|
    ensures starts == [] ==> After(starts) == NO_FILE
  {
    if starts != [] {
      var n := |starts| - 1;
      assert DiskWorks(starts[..n]) by {
        assert forall i :: 0 <= i < n ==> starts[..n][i] == starts[i];
      }
      DiskIsCurrent(starts[..n]);
      if n > 0 {
        assert starts[..n][n - 1] == starts[n - 1];
      }
    }
  }

  lemma AfterStep(starts: seq<Start>, n: nat)
    requires n < |starts|
    ensures After(starts[..n + 1]) == NextBoot(After(starts[..n]), starts[n])
  {
    assert starts[..n + 1][..n] == starts[..n];
  }

  /** Boot numbers increase from start to start exactly when the counter can be read at every
      restart and was written by every earlier run; a failed write repeats a number and a
      failed read falls back to 1, and the receiver then takes new envelopes for stale ones. */
  lemma IncreasingIffDiskWorks(starts: seq<Start>)
    ensures Increasing(starts) <==> DiskWorks(starts)
  {
    if DiskWorks(starts) {
      forall n | 0 <= n < |starts|
        ensures After(starts[..n]).boot < After(starts[..n + 1]).boot
      {
        DiskIsCurrent(starts[..n]);
        DiskIsCurrent(starts[..n + 1]);
      }
    }
    if Increasing(starts) {
      forall i | 1 <= i < |starts|
        ensures starts[i].readOk
      {
        RestartWorks(starts, i);
      }
      forall i | 0 <= i < |starts| - 1
        ensures starts[i].writeOk
      {
        RestartWorks(starts, i + 1);
      }
    }
  }

  lemma RestartWorks(starts: seq<Start>, i: nat)
    requires Increasing(starts) && 1 <= i < |starts|
    ensures starts[i].readOk && starts[i - 1].writeOk
  {
    AfterStep(starts, i);
    AfterStep(starts, i - 1);
    StoredBelow(starts, i - 1);
    assert After(starts[..i]).boot < After(starts[..i + 1]).boot;
    assert After(starts[..i - 1]).boot < After(starts[..i - 1 + 1]).boot;
  }

  /** The stored number never exceeds the last one used while numbers increase. */
  lemma {:induction false} StoredBelow(starts: seq<Start>, n: nat)
    requires Increasing(starts) && n <= |starts|
    ensures After(starts[..n]).stored <= After(starts[..n]).boot
  {
    if n > 0 {
      AfterStep(starts, n - 1);
      StoredBelow(starts, n - 1);
      assert After(starts[..n - 1]).boot < After(starts[..n - 1 + 1]).boot;
    }
  }
}
