/**
 * The file sinks of log/logs/sink.hpp.
 *
 * A sink receives already formatted records and writes them out. The file
 * system is modelled by the sink's own fields: the names of the files it
 * opened, in order, and the writes each file received. The clock is a
 * parameter: `LocalTime` is what `localtime_r` yields for `Date::now()`.
 */
module Sink {
  import Text
  import Util

  /** The fields of `struct tm` that name a rolled file. */
  datatype LocalTime = LocalTime(tmYear: nat, tmMon: nat, tmMday: nat, tmHour: nat, tmMin: nat, tmSec: nat)

  /** The date and time as `createNewFile` streams them: decimal, no padding, no separators. */
  function Stamp(t: LocalTime): string
  {
    Text.DecimalString(t.tmYear + 1900) + Text.DecimalString(t.tmMon + 1) + Text.DecimalString(t.tmMday)
    + Text.DecimalString(t.tmHour) + Text.DecimalString(t.tmMin) + Text.DecimalString(t.tmSec)
  }

  /** The name of the `count`-th file of a rolling sink opened at time `t`. */
  function RollFileName(basename: string, t: LocalTime, count: nat): string
  {
    basename + Stamp(t) + "-" + Text.DecimalString(count) + ".log"
  }

  /** The text after the last `-` of `s` (all of `s` when it has none). */
  function AfterLastDash(s: string): string
  {
    if s == [] then []
    else if s[|s| - 1] == '-' then []
    else AfterLastDash(s[..|s| - 1]) + [s[|s| - 1]]
  }

  /** The counter a rolled file name carries: the digits between the last `-` and `.log`. */
  function CounterOf(name: string): nat
  {
    var stem := if |name| >= 4 then name[..|name| - 4] else [];
    var digits := AfterLastDash(stem);
    if Text.AllDigits(digits) then Text.DecimalValue(digits) else 0
  }

  lemma {:induction false} AfterLastDashDigits(x: string, d: string)
    requires Text.AllDigits(d)
    ensures AfterLastDash(x + "-" + d) == d
    decreases |d|
  {
    var s := x + "-" + d;
    if d == [] {
      assert s[|s| - 1] == '-';
    } else {
      var n := |d| - 1;
      assert s[..|s| - 1] == x + "-" + d[..n];
      assert Text.IsDigit(s[|s| - 1]);
      AfterLastDashDigits(x, d[..n]);
      assert d[..n] + [d[n]] == d;
    }
  }

  /** The counter is read back from a file name, whatever the base name and the time. */
  lemma CounterRoundTrip(basename: string, t: LocalTime, count: nat)
    ensures CounterOf(RollFileName(basename, t, count)) == count
  {
    var d := Text.DecimalString(count);
    var x := basename + Stamp(t);
    var name := RollFileName(basename, t, count);
    assert name == (x + "-" + d) + ".log";
    assert name[..|name| - 4] == x + "-" + d;
    AfterLastDashDigits(x, d);
    Text.DecimalRoundTrip(count);
  }

  /** Files opened under different counters have different names. */
  lemma RollFileNamesDistinct(basename: string, t1: LocalTime, c1: nat, t2: LocalTime, c2: nat)
    requires c1 != c2
    ensures RollFileName(basename, t1, c1) != RollFileName(basename, t2, c2)
  {
    CounterRoundTrip(basename, t1, c1);
    CounterRoundTrip(basename, t2, c2);
  }

  /** The time stamp alone does not tell times apart: 2024-01-11 and 2024-11-01 print alike. */
  lemma StampAmbiguous()
    ensures Stamp(LocalTime(124, 0, 11, 0, 0, 0)) == Stamp(LocalTime(124, 10, 1, 0, 0, 0))
  {
    var one, eleven := Text.DecimalString(1), Text.DecimalString(11);
    assert eleven == one + one;
    var y, z := Text.DecimalString(2024), Text.DecimalString(0);
    assert y + one + eleven == y + eleven + one;
  }

  // ---------------------------------------------------------------------
  // Write accounting

  /** Total number of characters in a list of writes. */
  function Size(writes: seq<string>): nat
  {
    if writes == [] then 0 else Size(writes[..|writes| - 1]) + |writes[|writes| - 1]|
  }

  /** All writes of all files, file by file, in order. */
  function Flatten(files: seq<seq<string>>): seq<string>
  {
    if files == [] then [] else Flatten(files[..|files| - 1]) + files[|files| - 1]
  }

  lemma SizeAppend(writes: seq<string>, data: string)
    ensures Size(writes + [data]) == Size(writes) + |data|
  {
    assert (writes + [data])[..|writes|] == writes;
  }

  lemma FlattenAppendFile(files: seq<seq<string>>, f: seq<string>)
    ensures Flatten(files + [f]) == Flatten(files) + f
  {
    assert (files + [f])[..|files|] == files;
  }

  /**
   * The writes a file received, first to last: every write after the first
   * found the file below `limit`.
   */
  ghost predicate WrittenBelow(writes: seq<string>, limit: nat)
  {
    forall j :: 0 < j < |writes| ==> Size(writes[..j]) < limit
  }

  lemma WrittenBelowAppend(writes: seq<string>, data: string, limit: nat)
    requires WrittenBelow(writes, limit) && (writes != [] ==> Size(writes) < limit)
    ensures WrittenBelow(writes + [data], limit)
  {
    var w := writes + [data];
    forall j | 0 < j < |w| ensures Size(w[..j]) < limit {
      if j < |w| - 1 {
        assert w[..j] == writes[..j];
      } else {
        assert w[..j] == writes;
      }
    }
  }

  /** The i-th file is named after the time it was opened and the counter value i. */
  predicate NamedInOrder(basename: string, names: seq<string>, stamps: seq<LocalTime>)
  {
    |names| == |stamps| && forall i :: 0 <= i < |names| ==> names[i] == RollFileName(basename, stamps[i], i)
  }

  lemma NamedInOrderExtend(basename: string, names: seq<string>, stamps: seq<LocalTime>, t: LocalTime)
    requires NamedInOrder(basename, names, stamps)
    ensures NamedInOrder(basename, names + [RollFileName(basename, t, |names|)], stamps + [t])
  {
  }

  /** Every closed file reached the limit, and took no write after reaching it. */
  ghost predicate ClosedFull(closed: seq<seq<string>>, limit: nat)
  {
    forall i :: 0 <= i < |closed| ==> Size(closed[i]) >= limit && WrittenBelow(closed[i], limit)
  }

  lemma ClosedFullExtend(closed: seq<seq<string>>, writes: seq<string>, limit: nat)
    requires ClosedFull(closed, limit) && Size(writes) >= limit && WrittenBelow(writes, limit)
    ensures ClosedFull(closed + [writes], limit)
  {
  }

  // ---------------------------------------------------------------------
  // Sinks

  /** `FileSink`: one file, opened for appending when the sink is built. */
  class FileSink {
    var pathname: string
    /** What the sink wrote to its file. */
    var content: string
    /** The directories created for the file, in the order `create_directory` made them. */
    var dirsMade: seq<string>

    constructor(pathname: string, existing: set<string>)
      ensures this.pathname == pathname && content == []
      ensures dirsMade == Util.MkdirCalls(Util.Path(pathname), existing)
    {
      this.pathname := pathname;
      content := [];
      new;
      dirsMade := Util.CreateDirectory(Util.Path(pathname), existing);
    }

    /** `log`: the record is appended to the file. */
    method Log(data: string)
      modifies this`content
      ensures content == old(content) + data
    {
      content := content + data;
    }
  }

  /**
   * `RollBySizeSink`: writes go to the current file until it has reached the
   * maximum size; the next write first opens a new file.
   */
  class RollBySizeSink {
    const basename: string
    const maxFsize: nat
    /** Characters written to the current file. */
    var curFsize: nat
    /** How many file names have been made. */
    var nameCount: nat
    /** The files opened, in order; the last one is the current file. */
    var names: seq<string>
    /** When each file was opened. */
    var stamps: seq<LocalTime>
    /** The writes each closed file received, in order. */
    var closed: seq<seq<string>>
    /** The writes the current file received, in order. */
    var current: seq<string>
    /** The directories created for the first file. */
    var dirsMade: seq<string>

    ghost predicate Valid()
      reads this
    {
      && |names| == |stamps| == |closed| + 1 == nameCount
      && NamedInOrder(basename, names, stamps)
      && curFsize == Size(current)
      && ClosedFull(closed, maxFsize)
      && WrittenBelow(current, maxFsize)
    }

    /** Everything written, in the order it was logged. */
    ghost function Logged(): seq<string>
      reads this
    {
      Flatten(closed) + current
    }

    constructor(basename: string, maxSize: nat, now: LocalTime, existing: set<string>)
      ensures Valid()
      ensures this.basename == basename && maxFsize == maxSize
      ensures names == [RollFileName(basename, now, 0)] && stamps == [now]
      ensures closed == [] && current == [] && curFsize == 0 && nameCount == 1
      ensures dirsMade == Util.MkdirCalls(Util.Path(names[0]), existing)
    {
      this.basename := basename;
      maxFsize := maxSize;
      curFsize := 0;
      nameCount := 0;
      names, stamps, closed, current, dirsMade := [], [], [], [], [];
      new;
      var pathname := CreateNewFile(now);
      dirsMade := Util.CreateDirectory(Util.Path(pathname), existing);
      names, stamps := [pathname], [now];
    }

    /** `createNewFile`: the next name, made from the time and the counter, which it advances. */
    method CreateNewFile(now: LocalTime) returns (name: string)
      modifies this`nameCount
      ensures name == RollFileName(basename, now, old(nameCount))
      ensures nameCount == old(nameCount) + 1
    {
      name := basename + Stamp(now) + "-" + Text.DecimalString(nameCount) + ".log";
      nameCount := nameCount + 1;
    }

    /** The roll in `log`: the full current file is closed and the next one is opened, still empty. */
    method Roll(now: LocalTime)
      requires Valid() && curFsize >= maxFsize
      modifies this`nameCount, this`names, this`stamps, this`closed, this`current, this`curFsize
      ensures Valid()
      ensures names == old(names) + [RollFileName(basename, now, old(nameCount))]
      ensures stamps == old(stamps) + [now]
      ensures closed == old(closed) + [old(current)] && current == [] && curFsize == 0
      ensures Logged() == old(Logged())
    {
      var pathname := CreateNewFile(now);
      FlattenAppendFile(closed, current);
      NamedInOrderExtend(basename, names, stamps, now);
      ClosedFullExtend(closed, current, maxFsize);
      names, stamps := names + [pathname], stamps + [now];
      closed, current := closed + [current], [];
      curFsize := 0;
      assert Flatten(closed) + current == Flatten(closed);
    }

    /**
     * `log`: when the current file has reached the maximum size, it is
     * closed and a new file is opened first; then the record is written to
     * the current file.
     */
    method Log(data: string, now: LocalTime)
      requires Valid()
      modifies this`nameCount, this`names, this`stamps, this`closed, this`current, this`curFsize
      ensures Valid()
      ensures Logged() == old(Logged()) + [data]
      ensures old(curFsize) >= maxFsize ==>
        && names == old(names) + [RollFileName(basename, now, old(nameCount))]
        && stamps == old(stamps) + [now]
        && closed == old(closed) + [old(current)]
        && current == [data]
      ensures old(curFsize) < maxFsize ==>
        && names == old(names) && stamps == old(stamps)
        && closed == old(closed) && current == old(current) + [data]
      ensures curFsize == (if old(curFsize) >= maxFsize then 0 else old(curFsize)) + |data|
      ensures curFsize == Size(current) && nameCount == |names|
    {
      if curFsize >= maxFsize {
        Roll(now);
      }
      Write(data);
    }

    /** The write in `log`: the record goes to the current file, and its length is counted. */
    method Write(data: string)
      requires Valid() && (current == [] || curFsize < maxFsize)
      modifies this`current, this`curFsize
      ensures Valid()
      ensures current == old(current) + [data] && curFsize == old(curFsize) + |data|
      ensures Logged() == old(Logged()) + [data]
    {
      WrittenBelowAppend(current, data, maxFsize);
      SizeAppend(current, data);
      current := current + [data];
      curFsize := curFsize + |data|;
    }
  }

  /** No two files of a rolling sink share a name, so no file is ever reopened. */
  lemma OpenedNamesDistinct(sink: RollBySizeSink)
    requires sink.Valid()
    ensures forall i, j :: 0 <= i < j < |sink.names| ==> sink.names[i] != sink.names[j]
  {
    forall i, j | 0 <= i < j < |sink.names|
      ensures sink.names[i] != sink.names[j]
    {
      RollFileNamesDistinct(sink.basename, sink.stamps[i], i, sink.stamps[j], j);
    }
  }

  /** The characters logged so far are those in the closed files plus those counted in `_cur_fsize`. */
  lemma LoggedSize(sink: RollBySizeSink)
    requires sink.Valid()
    ensures Size(sink.Logged()) == SizeSum(sink.closed) + sink.curFsize
  {
    SizeFlatten(sink.closed);
    SizeConcat(Flatten(sink.closed), sink.current);
  }

  /** Concatenating the files' writes keeps every character. */
  lemma {:induction false} SizeFlatten(files: seq<seq<string>>)
    ensures Size(Flatten(files)) == SizeSum(files)
  {
    if files != [] {
      var n := |files| - 1;
      SizeFlatten(files[..n]);
      assert files == files[..n] + [files[n]];
      SizeConcat(Flatten(files[..n]), files[n]);
    }
  }

  /** The sizes of the files, added up. */
  function SizeSum(files: seq<seq<string>>): nat
  {
    if files == [] then 0 else SizeSum(files[..|files| - 1]) + Size(files[|files| - 1])
  }

  lemma {:induction false} SizeConcat(a: seq<string>, b: seq<string>)
    ensures Size(a + b) == Size(a) + Size(b)
    decreases |b|
  {
    if b == [] {
      assert a + b == a;
    } else {
      var m := |b| - 1;
      SizeConcat(a, b[..m]);
      assert a + b == (a + b[..m]) + [b[m]];
      assert b == b[..m] + [b[m]];
      SizeAppend(a + b[..m], b[m]);
      SizeAppend(b[..m], b[m]);
    }
  }
}
