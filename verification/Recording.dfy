/** The recorder (storage/recorder.py): a bounded queue drained in batches into one text file per hour. */
module Recording {
  import opened Grid
  import opened Newest

  const QUEUE_MAX: nat := 65536

  // ---- lines of text

  predicate Blank(c: char) {
    c == ' ' || c == '\t' || c == '\n' || c == '\r' || c == '\U{000B}' || c == '\U{000C}'
  }

  function TrimLeft(s: string): string {
    if s != "" && Blank(s[0]) then TrimLeft(s[1..]) else s
  }

  function TrimRight(s: string): string {
    if s != "" && Blank(s[|s| - 1]) then TrimRight(s[..|s| - 1]) else s
  }

  /** Where the first line of a text ends. */
  function LineEnd(s: string): (e: nat)
    ensures e <= |s| && '\n' !in s[..e] && (e < |s| ==> s[e] == '\n')
  {
    if s == "" || s[0] == '\n' then 0
    else
      var e := 1 + LineEnd(s[1..]);
      assert s[..e] == [s[0]] + s[1..][..e - 1];
      e
  }

  function Lines(s: string): seq<string>
    decreases |s|
  {
    if s == "" then []
    else
      var e := LineEnd(s);
      if e < |s| then [s[..e]] + Lines(s[e + 1..]) else [s]
  }

  /** Each line stripped, blank ones skipped. */
  function Stripped(lines: seq<string>): seq<string> {
    if lines == [] then []
    else
      var line := TrimRight(TrimLeft(lines[0]));
      if line == "" then Stripped(lines[1..]) else [line] + Stripped(lines[1..])
  }

  function Texts(s: string): seq<string> {
    Stripped(Lines(s))
  }

  /** b"\n".join(lines) */
  function Join(lines: seq<string>): string {
    if lines == [] then "" else if |lines| == 1 then lines[0] else lines[0] + "\n" + Join(lines[1..])
  }

  /** A line that survives the round trip through a text file. */
  predicate Clean(line: string) {
    line != "" && '\n' !in line && !Blank(line[0]) && !Blank(line[|line| - 1])
  }

  /** One JSON object on one line. */
  predicate ObjectLine(line: string) {
    |line| >= 2 && line[0] == '{' && line[|line| - 1] == '}' && '\n' !in line
  }

  lemma ObjectsAreClean(line: string)
    requires ObjectLine(line)
    ensures Clean(line)
  {
  }

  ghost predicate AllClean(lines: seq<string>) {
    forall line <- lines :: Clean(line)
  }

  predicate Ended(s: string) {
    s == "" || s[|s| - 1] == '\n'
  }

  lemma NoBreakBefore(s: string)
    ensures forall k :: 0 <= k < LineEnd(s) ==> s[k] != '\n'
  {
    var e := LineEnd(s);
    forall k | 0 <= k < e ensures s[k] != '\n' { assert s[..e][k] in s[..e]; }
  }

  lemma FirstLine(line: string, rest: string)
    requires '\n' !in line
    ensures LineEnd(line + "\n" + rest) == |line|
  {
    var s := line + "\n" + rest;
    NoBreakBefore(s);
    forall k | 0 <= k < |line| ensures s[k] != '\n' { assert line[k] in line; }
    assert s[|line|] == '\n';
  }

  lemma FirstOfLines(line: string, rest: string)
    requires '\n' !in line
    ensures Lines(line + "\n" + rest) == [line] + Lines(rest)
  {
    var s := line + "\n" + rest;
    FirstLine(line, rest);
    assert s[..|line|] == line && s[|line| + 1..] == rest;
  }

  lemma CutLine(a: string) returns (line: string, rest: string)
    requires Ended(a) && a != ""
    ensures a == line + "\n" + rest && '\n' !in line && Ended(rest) && |rest| < |a|
  {
    var e := LineEnd(a);
    NoBreakBefore(a);
    line, rest := a[..e], a[e + 1..];
  }

  lemma Reassociate(a: string, b: string, c: string)
    ensures a + "\n" + b + c == a + "\n" + (b + c)
  {
  }

  lemma {:induction false} LinesAppend(a: string, b: string)
    requires Ended(a)
    ensures Lines(a + b) == Lines(a) + Lines(b)
    decreases |a|
  {
    if a == "" {
      assert a + b == b;
    } else {
      var line, rest := CutLine(a);
      LinesAppend(rest, b);
      AppendFirst(line, rest, b);
    }
  }

  lemma AppendFirst(line: string, rest: string, b: string)
    requires '\n' !in line && Lines(rest + b) == Lines(rest) + Lines(b)
    ensures Lines(line + "\n" + rest + b) == Lines(line + "\n" + rest) + Lines(b)
  {
    Reassociate(line, rest, b);
    FirstOfLines(line, rest);
    FirstOfLines(line, rest + b);
  }

  lemma {:induction false} StrippedAppend(xs: seq<string>, ys: seq<string>)
    ensures Stripped(xs + ys) == Stripped(xs) + Stripped(ys)
  {
    if xs == [] {
      assert xs + ys == ys;
    } else {
      assert (xs + ys)[0] == xs[0] && (xs + ys)[1..] == xs[1..] + ys;
      StrippedAppend(xs[1..], ys);
    }
  }

  lemma TextsAppend(a: string, b: string)
    requires Ended(a)
    ensures Texts(a + b) == Texts(a) + Texts(b)
  {
    LinesAppend(a, b);
    StrippedAppend(Lines(a), Lines(b));
  }

  lemma OneText(line: string)
    requires Clean(line)
    ensures Texts(line + "\n") == [line]
  {
    FirstLine(line, "");
    assert line + "\n" + "" == line + "\n";
    assert (line + "\n")[..|line|] == line && (line + "\n")[|line| + 1..] == "";
    assert Lines(line + "\n") == [line] + Lines("");
    assert [line][1..] == [] && Stripped([]) == [];
  }

  /** What _write_batch appends reads back as the very lines of the batch. */
  lemma {:induction false} BatchReadsBack(lines: seq<string>)
    requires lines != [] && AllClean(lines)
    ensures Texts(Join(lines) + "\n") == lines && Ended(Join(lines) + "\n")
  {
    assert lines[0] in lines;
    OneText(lines[0]);
    if |lines| > 1 {
      assert forall x <- lines[1..] :: x in lines;
      BatchReadsBack(lines[1..]);
      assert Join(lines) + "\n" == (lines[0] + "\n") + (Join(lines[1..]) + "\n");
      TextsAppend(lines[0] + "\n", Join(lines[1..]) + "\n");
    }
  }

  // ---- the directory of hour files

  type Directory = map<int, string>

  /** The records of all files in the order of their hours. */
  function ReadAll(d: Directory): seq<string>
    decreases |d|
  {
    if |d| == 0 then []
    else
      var newest := MaxOf(d.Keys);
      assert |(d - {newest}).Keys| == |d.Keys - {newest}|;
      ReadAll(d - {newest}) + Texts(d[newest])
  }

  function FileOf(d: Directory, hour: int): string {
    if hour in d then d[hour] else ""
  }

  /** Appending to a file opened with "ab". */
  function Append(d: Directory, hour: int, text: string): Directory {
    d[hour := FileOf(d, hour) + text]
  }

  ghost predicate NoLater(d: Directory, hour: int) {
    forall h <- d :: h <= hour
  }

  lemma ReadNewest(d: Directory, hour: int)
    requires hour in d && NoLater(d, hour)
    ensures ReadAll(d) == ReadAll(d - {hour}) + Texts(d[hour])
  {
    assert |d.Keys| > 0;
    assert MaxOf(d.Keys) == hour;
  }

  /** Rewriting the newest file. */
  lemma ReadRewritten(d: Directory, hour: int, whole: string)
    requires NoLater(d, hour)
    ensures ReadAll(d[hour := whole]) == ReadAll(d - {hour}) + Texts(whole)
  {
    ReadNewest(d[hour := whole], hour);
    assert d[hour := whole] - {hour} == d - {hour};
  }

  /** The newest file, which may not exist yet. */
  lemma ReadCurrent(d: Directory, hour: int)
    requires NoLater(d, hour)
    ensures ReadAll(d) == ReadAll(d - {hour}) + Texts(FileOf(d, hour))
  {
    if hour in d {
      ReadNewest(d, hour);
    } else {
      assert d - {hour} == d;
      assert Texts("") == [];
      assert ReadAll(d) + [] == ReadAll(d);
    }
  }

  lemma AppendReads(d: Directory, hour: int, text: string)
    requires NoLater(d, hour) && Ended(FileOf(d, hour))
    ensures ReadAll(Append(d, hour, text)) == ReadAll(d) + Texts(text)
  {
    ReadRewritten(d, hour, FileOf(d, hour) + text);
    ReadCurrent(d, hour);
    TextsAppend(FileOf(d, hour), text);
    Regroup(ReadAll(d - {hour}), Texts(FileOf(d, hour)), Texts(text));
  }

  lemma Regroup(a: seq<string>, b: seq<string>, c: seq<string>)
    ensures a + (b + c) == a + b + c
  {
  }

  // ---- file names

  function Digit(d: nat): char
    requires d < 10
  {
    '0' + d as char
  }

  function Numeral(n: nat): string {
    if n < 10 then [Digit(n)] else Numeral(n / 10) + [Digit(n % 10)]
  }

  function FileName(hour: nat): string {
    Numeral(hour * 3600) + ".jsonl"
  }

  predicate Decimal(s: string) {
    s == "" || ('0' <= s[|s| - 1] <= '9' && Decimal(s[..|s| - 1]))
  }

  /** What a decimal numeral says. */
  function Reads(s: string): nat
    requires Decimal(s)
  {
    if s == "" then 0
    else
      10 * Reads(s[..|s| - 1]) + (s[|s| - 1] - '0') as nat
  }

  /** Numerals are decimal, without leading zeros. */
  lemma {:induction false} NumeralMeans(n: nat)
    ensures Decimal(Numeral(n)) && Reads(Numeral(n)) == n
    ensures Numeral(n) != "" && (n > 0 ==> Numeral(n)[0] != '0')
  {
    if n < 10 {
      assert Numeral(n)[..0] == "";
    } else {
      NumeralMeans(n / 10);
      var init, s := Numeral(n / 10), Numeral(n);
      assert s[..|s| - 1] == init;
    }
  }

  /** A file is named after the second at which its hour begins. */
  lemma FileNameMeans(hour: nat)
    ensures |FileName(hour)| > 6 && FileName(hour)[|FileName(hour)| - 6..] == ".jsonl"
    ensures var stem := FileName(hour)[..|FileName(hour)| - 6];
            Decimal(stem) && Reads(stem) == 3600 * hour && (hour > 0 ==> stem[0] != '0')
  {
    NumeralMeans(hour * 3600);
    assert FileName(hour)[..|FileName(hour)| - 6] == Numeral(hour * 3600);
  }

  /** The order in which sorted() puts texts. */
  predicate Before(a: string, b: string) {
    if a == [] || b == [] then a == [] && b != [] else if a[0] == b[0] then Before(a[1..], b[1..]) else a[0] < b[0]
  }

  lemma {:induction false} BeforeExtends(a: string, b: string, x: string, y: string)
    requires |a| == |b| && (Before(a, b) || (a == b && Before(x, y)))
    ensures Before(a + x, b + y)
  {
    if a == [] {
      assert a + x == x && b + y == y;
    } else {
      assert (a + x)[0] == a[0] && (b + y)[0] == b[0] && (a + x)[1..] == a[1..] + x && (b + y)[1..] == b[1..] + y;
      if a[0] == b[0] { BeforeExtends(a[1..], b[1..], x, y); }
    }
  }

  lemma {:induction false} NumeralsSort(n: nat, m: nat)
    requires n < m && |Numeral(n)| == |Numeral(m)|
    ensures Before(Numeral(n), Numeral(m))
  {
    if m >= 10 && n >= 10 {
      if n / 10 < m / 10 { NumeralsSort(n / 10, m / 10); }
      assert Before([Digit(n % 10)], [Digit(m % 10)]) || n % 10 >= m % 10;
      BeforeExtends(Numeral(n / 10), Numeral(m / 10), [Digit(n % 10)], [Digit(m % 10)]);
    }
  }

  /** While the names are equally wide, sorting them sorts the files by hour. */
  lemma NamesSortByHour(h: nat, k: nat)
    requires h < k && |FileName(h)| == |FileName(k)|
    ensures Before(FileName(h), FileName(k))
  {
    NumeralsSort(h * 3600, k * 3600);
    BeforeExtends(Numeral(h * 3600), Numeral(k * 3600), ".jsonl", ".jsonl");
  }

  lemma {:induction false} BeforeOneWay(a: string, b: string)
    requires Before(a, b)
    ensures !Before(b, a)
  {
    if a != [] && a[0] == b[0] { BeforeOneWay(a[1..], b[1..]); }
  }

  predicate EqualWidth(d: Directory) {
    (forall h <- d :: h >= 0) && forall h <- d, k <- d :: |FileName(h)| == |FileName(k)|
  }

  /** A listing of the files of a directory in the order of their names, as sorted() gives it. */
  ghost predicate SortedListing(d: Directory, hours: seq<nat>) {
    && (forall h :: h in d <==> h in hours)
    && forall i, j :: 0 <= i < j < |hours| ==> Before(FileName(hours[i]), FileName(hours[j]))
  }

  /** The records of the files in the order of a listing. */
  function ReadListed(d: Directory, hours: seq<nat>): seq<string>
    requires forall h <- hours :: h in d
  {
    if hours == [] then []
    else
      assert hours == hours[..|hours| - 1] + [hours[|hours| - 1]];
      ReadListed(d, hours[..|hours| - 1]) + Texts(d[hours[|hours| - 1]])
  }

  lemma LastIsNewest(d: Directory, hours: seq<nat>)
    requires SortedListing(d, hours) && EqualWidth(d) && hours != []
    ensures NoLater(d, hours[|hours| - 1]) && hours[|hours| - 1] !in hours[..|hours| - 1]
  {
    var n := |hours| - 1;
    forall i | 0 <= i < n ensures hours[i] < hours[n] {
      assert Before(FileName(hours[i]), FileName(hours[n])) && hours[i] in d && hours[n] in d;
      BeforeOneWay(FileName(hours[i]), FileName(hours[n]));
      if hours[n] < hours[i] { NamesSortByHour(hours[n], hours[i]); }
    }
    forall h | h in d ensures h <= hours[n] {
      var i :| 0 <= i < |hours| && hours[i] == h;
    }
  }

  lemma ShorterListing(d: Directory, hours: seq<nat>)
    requires SortedListing(d, hours) && EqualWidth(d) && hours != []
    ensures var init, last := hours[..|hours| - 1], hours[|hours| - 1];
            SortedListing(d - {last}, init) && EqualWidth(d - {last}) && forall h <- init :: h in d
  {
    var init, last := hours[..|hours| - 1], hours[|hours| - 1];
    assert hours == init + [last];
    LastIsNewest(d, hours);
    forall h ensures h in d - {last} <==> h in init { assert h in hours <==> h in init || h == last; }
  }

  /** Such a listing always exists: the one by hour. */
  lemma {:induction false} ListingByHour(d: Directory) returns (hours: seq<nat>)
    requires EqualWidth(d)
    ensures SortedListing(d, hours)
    decreases |d|
  {
    if |d| == 0 {
      hours := [];
    } else {
      var newest := MaxOf(d.Keys);
      assert newest in d;
      assert |(d - {newest}).Keys| == |d.Keys - {newest}|;
      hours := ListingByHour(d - {newest});
      LongerListing(d, hours, newest);
      hours := hours + [newest];
    }
  }

  lemma LongerListing(d: Directory, older: seq<nat>, newest: nat)
    requires SortedListing(d - {newest}, older) && EqualWidth(d) && newest in d && NoLater(d, newest)
    ensures SortedListing(d, older + [newest])
  {
    forall i | 0 <= i < |older| ensures Before(FileName(older[i]), FileName(newest)) {
      assert older[i] in older && older[i] in d - {newest};
      NamesSortByHour(older[i], newest);
    }
  }

  lemma {:induction false} ReadElsewhere(d: Directory, hour: int, hours: seq<nat>)
    requires hour !in hours && forall h <- hours :: h in d
    ensures ReadListed(d - {hour}, hours) == ReadListed(d, hours)
  {
    if hours != [] {
      assert hours == hours[..|hours| - 1] + [hours[|hours| - 1]];
      ReadElsewhere(d, hour, hours[..|hours| - 1]);
    }
  }

  /** Reading the files by name is reading them by hour, as long as the names are equally wide. */
  lemma {:induction false} NameOrderReads(d: Directory, hours: seq<nat>)
    requires SortedListing(d, hours) && EqualWidth(d)
    ensures ReadListed(d, hours) == ReadAll(d)
    decreases hours
  {
    if hours == [] {
      assert forall h :: h !in d;
      if |d| > 0 { var h := Member(d.Keys); }
    } else {
      var init, last := hours[..|hours| - 1], hours[|hours| - 1];
      assert hours == init + [last];
      LastIsNewest(d, hours);
      ShorterListing(d, hours);
      NameOrderReads(d - {last}, init);
      ReadElsewhere(d, last, init);
      ReadNewest(d, last);
    }
  }

  // ---- the queue and its writer

  /** None is the sentinel put by stop. */
  type Queue = seq<Option<string>>

  /** The lines before the sentinel. */
  function Ahead(q: Queue): seq<string> {
    if q == [] || q[0].None? then [] else [q[0].value] + Ahead(q[1..])
  }

  function Behind(q: Queue): Queue {
    if q == [] then [] else if q[0].None? then q[1..] else Behind(q[1..])
  }

  predicate Stops(q: Queue) {
    None in q
  }

  /** buf and ending are what the writer has taken off the queue and not yet dealt with. */
  datatype Tape = Tape(queue: Queue, buf: seq<string>, ending: bool, files: Directory, hour: int, isOpen: bool,
                       dropped: nat, written: nat, stopped: bool)

  const BLANK_TAPE: Tape := Tape([], [], false, map[], -1, false, 0, 0, false)

  /** Recorder.record */
  function Recorded(r: Tape, line: string): Tape {
    if |r.queue| >= QUEUE_MAX then r.(dropped := r.dropped + 1) else r.(queue := r.queue + [Some(line)])
  }

  /** Recorder.stop */
  function Stopping(r: Tape): Tape {
    r.(queue := r.queue + [None])
  }

  /** _write_batch: the file handle stays on its hour until another hour, or a restart, reopens one. */
  function Batched(r: Tape, lines: seq<string>, hour: int): Tape {
    r.(hour := hour, isOpen := true, files := Append(r.files, hour, Join(lines) + "\n"))
  }

  /** The writer has a batch in hand, or is about to stop. */
  predicate Busy(r: Tape) {
    r.buf != [] || r.ending
  }

  /** The writer takes everything up to the sentinel off the queue. */
  function Taken(r: Tape): Tape {
    if r.stopped || Busy(r) || r.queue == [] then r
    else r.(queue := Behind(r.queue), buf := Ahead(r.queue), ending := Stops(r.queue))
  }

  /** The write of the batch returns, in the executor's own time, and the turn of the writer ends. */
  function Landed(r: Tape, hour: int): Tape {
    var r1 := if r.buf == [] then r else Batched(r, r.buf, hour).(buf := [], written := r.written + |r.buf|);
    if r.ending then r1.(ending := false, stopped := true, isOpen := false) else r1
  }

  class Recorder {
    var queue: Queue
    var buf: seq<string>
    var ending: bool
    var files: Directory
    var hour: int
    var isOpen: bool
    var dropped: nat
    var written: nat
    var stopped: bool

    function Value(): Tape
      reads this
    {
      Tape(queue, buf, ending, files, hour, isOpen, dropped, written, stopped)
    }

    constructor ()
      ensures Value() == BLANK_TAPE
    {
      queue, buf, ending, files, hour, isOpen, dropped, written, stopped := [], [], false, map[], -1, false, 0, 0, false;
    }

    method Record(line: string)
      modifies this`queue, this`dropped
      ensures Value() == Recorded(old(Value()), line)
      ensures |old(queue)| < 65536 ==> queue == old(queue) + [Some(line)] && dropped == old(dropped)
      ensures |old(queue)| >= 65536 ==> queue == old(queue) && dropped == old(dropped) + 1
    {
      if |queue| >= QUEUE_MAX {
        dropped := dropped + 1;
      } else {
        queue := queue + [Some(line)];
      }
    }

    method Stop()
      modifies this`queue
      ensures Value() == Stopping(old(Value()))
    {
      queue := queue + [None];
    }

    method WriteBatch(lines: seq<string>, now: int)
      modifies this`files, this`hour, this`isOpen
      ensures Value() == Batched(old(Value()), lines, now)
      ensures hour == now && isOpen
      ensures now in files && files[now] == (if now in old(files) then old(files)[now] else "") + Join(lines) + "\n"
      ensures forall h :: h != now ==> (h in files <==> h in old(files)) && (h in files ==> files[h] == old(files)[h])
    {
      if now != hour || !isOpen {
        isOpen, hour := true, now;
      }
      files := Append(files, hour, Join(lines) + "\n");
    }

    /** The first half of a turn of _writer, up to the write. */
    method Take()
      requires !stopped && !Busy(Value()) && queue != []
      modifies this`queue, this`buf, this`ending
      ensures Value() == Taken(old(Value()))
    {
      var lines, stop, rest := [], false, queue;
      while rest != [] && !stop
        invariant Ahead(queue) == lines + (if stop then [] else Ahead(rest))
        invariant Behind(queue) == if stop then rest else Behind(rest)
        invariant Stops(queue) <==> stop || Stops(rest)
        decreases |rest|
      {
        var item := rest[0];
        assert rest == [item] + rest[1..];
        rest := rest[1..];
        if item.None? {
          stop := true;
          break;
        }
        lines := lines + [item.value];
      }
      assert lines + [] == lines;
      queue, buf, ending := rest, lines, stop;
    }

    /** The second half; now is the hour the batch is written at. */
    method Land(now: int)
      modifies this
      ensures Value() == Landed(old(Value()), now)
      ensures buf == [] && written == old(written) + |old(buf)| && (old(ending) ==> stopped && !isOpen)
    {
      if buf != [] {
        WriteBatch(buf, now);
        written := written + |buf|;
        buf := [];
      }
      if ending {
        ending, isOpen, stopped := false, false, true;
      }
    }
  }

  // ---- every history of records, batches and rotations

  datatype Event = Record(line: string) | Take | Land(hour: int) | Stop

  function OnEvent(r: Tape, e: Event): Tape {
    match e
    case Record(line) => Recorded(r, line)
    case Take => Taken(r)
    case Land(hour) => Landed(r, hour)
    case Stop => Stopping(r)
  }

  function OnEvents(es: seq<Event>): Tape {
    if es == [] then BLANK_TAPE else OnEvent(OnEvents(es[..|es| - 1]), es[|es| - 1])
  }

  predicate StopAsked(es: seq<Event>) {
    Stop in es
  }

  /** What was accepted before stop was asked for. */
  function Accepted(es: seq<Event>): seq<string> {
    if es == [] then []
    else
      var init, e := es[..|es| - 1], es[|es| - 1];
      if e.Record? && |OnEvents(init).queue| < 65536 && !StopAsked(init) then Accepted(init) + [e.line] else Accepted(init)
  }

  /** Lines are clean and the writer's hour is never behind a file already written. */
  ghost predicate Orderly(es: seq<Event>) {
    es != [] ==>
      var init, e := es[..|es| - 1], es[|es| - 1];
      && Orderly(init)
      && (e.Record? ==> Clean(e.line))
      && (e.Land? ==> NoLater(OnEvents(init).files, e.hour))
  }

  lemma {:induction false} AheadAppend(q: Queue, item: Option<string>)
    ensures Ahead(q + [item]) == if Stops(q) || item.None? then Ahead(q) else Ahead(q) + [item.value]
    ensures Stops(q + [item]) <==> Stops(q) || item.None?
  {
    if q == [] {
      assert q + [item] == [item] && [item][1..] == [];
    } else {
      assert (q + [item])[0] == q[0] && (q + [item])[1..] == q[1..] + [item];
      assert q == [q[0]] + q[1..];
      AheadAppend(q[1..], item);
    }
  }

  lemma {:induction false} NoSentinel(q: Queue)
    requires !Stops(q)
    ensures Behind(q) == []
  {
    if q != [] {
      assert q[0] in q && forall x <- q[1..] :: x in q;
      NoSentinel(q[1..]);
    }
  }

  /** What the writer has yet to take: nothing once it has met the sentinel. */
  function Waiting(r: Tape): seq<string> {
    if r.stopped || r.ending then [] else Ahead(r.queue)
  }

  predicate FilesEnded(d: Directory) {
    forall h <- d :: Ended(d[h])
  }

  /** What is on disk, followed by the batch in flight and by what is still ahead of the sentinel, is what was
      accepted, in order. */
  ghost predicate Kept(accepted: seq<string>, asked: bool, r: Tape) {
    && ReadAll(r.files) + (r.buf + Waiting(r)) == accepted
    && AllClean(accepted)
    && FilesEnded(r.files)
    && (asked <==> r.stopped || r.ending || Stops(r.queue))
    && (r.stopped ==> !Busy(r))
    && r.written == |ReadAll(r.files)|
  }

  lemma AddLine(done: seq<string>, batch: seq<string>, rest: seq<string>, line: string)
    ensures done + (batch + (rest + [line])) == done + (batch + rest) + [line]
  {
  }

  lemma RecordKept(accepted: seq<string>, asked: bool, r: Tape, line: string)
    requires Kept(accepted, asked, r) && Clean(line)
    ensures Kept(if |r.queue| < QUEUE_MAX && !asked then accepted + [line] else accepted, asked, Recorded(r, line))
  {
    if |r.queue| < QUEUE_MAX {
      AheadAppend(r.queue, Some(line));
      if !asked { AddLine(ReadAll(r.files), r.buf, Ahead(r.queue), line); }
    }
  }

  lemma StopKept(accepted: seq<string>, asked: bool, r: Tape)
    requires Kept(accepted, asked, r)
    ensures Kept(accepted, true, Stopping(r))
  {
    AheadAppend(r.queue, None);
  }

  lemma MiddleClean(done: seq<string>, batch: seq<string>, rest: seq<string>)
    requires AllClean(done + (batch + rest))
    ensures AllClean(batch)
  {
    forall x | x in batch ensures Clean(x) { assert x in done + (batch + rest); }
  }

  lemma BatchKept(d: Directory, lines: seq<string>, hour: int)
    requires lines != [] && AllClean(lines) && FilesEnded(d) && NoLater(d, hour)
    ensures var r := Append(d, hour, Join(lines) + "\n"); ReadAll(r) == ReadAll(d) + lines && FilesEnded(r)
  {
    BatchReadsBack(lines);
    AppendReads(d, hour, Join(lines) + "\n");
  }

  lemma TakeKept(accepted: seq<string>, asked: bool, r: Tape)
    requires Kept(accepted, asked, r)
    ensures Kept(accepted, asked, Taken(r))
  {
    if !r.stopped && !Busy(r) && r.queue != [] {
      if !Stops(r.queue) { NoSentinel(r.queue); }
      assert r.buf + Waiting(r) == Taken(r).buf + Waiting(Taken(r));
    }
  }

  lemma LandKept(accepted: seq<string>, asked: bool, r: Tape, hour: int)
    requires Kept(accepted, asked, r) && NoLater(r.files, hour)
    ensures Kept(accepted, asked, Landed(r, hour))
  {
    MiddleClean(ReadAll(r.files), r.buf, Waiting(r));
    if r.buf != [] {
      BatchKept(r.files, r.buf, hour);
      Regroup(ReadAll(r.files), r.buf, Waiting(r));
      assert [] + Waiting(r) == Waiting(r);
    }
  }

  lemma {:induction false} HistoryKept(es: seq<Event>)
    requires Orderly(es)
    ensures Kept(Accepted(es), StopAsked(es), OnEvents(es))
  {
    if es == [] {
      assert ReadAll(map[]) == [];
    } else {
      var init, e := es[..|es| - 1], es[|es| - 1];
      assert es == init + [e];
      HistoryKept(init);
      match e
      case Record(line) => RecordKept(Accepted(init), StopAsked(init), OnEvents(init), line);
      case Take => TakeKept(Accepted(init), StopAsked(init), OnEvents(init));
      case Land(hour) => LandKept(Accepted(init), StopAsked(init), OnEvents(init), hour);
      case Stop => StopKept(Accepted(init), StopAsked(init), OnEvents(init));
    }
  }

  /** The writer has stopped, or has nothing left to do. */
  predicate Settled(r: Tape) {
    r.stopped || (r.queue == [] && r.buf == [])
  }

  /** Record/read round trip: once the writer has stopped, or has drained the queue and written its batch, the files
      read back as exactly the accepted lines in order, whatever the batches and rotations were and whatever was
      recorded while a batch was being written. */
  lemma ReadsBack(es: seq<Event>)
    requires Orderly(es) && Settled(OnEvents(es))
    ensures ReadAll(OnEvents(es).files) == Accepted(es) && OnEvents(es).written == |Accepted(es)|
  {
    HistoryKept(es);
    assert ReadAll(OnEvents(es).files) + ([] + []) == ReadAll(OnEvents(es).files);
  }

  function Offered(es: seq<Event>): seq<string> {
    if es == [] then []
    else
      var before, e := Offered(es[..|es| - 1]), es[|es| - 1];
      if e.Record? then before + [e.line] else before
  }

  lemma DropsStay(r: Tape, e: Event)
    ensures OnEvent(r, e).dropped >= r.dropped
    ensures e.Record? && |r.queue| >= QUEUE_MAX ==> OnEvent(r, e).dropped > r.dropped
  {
  }

  lemma {:induction false} BehindShorter(q: Queue)
    ensures |Behind(q)| <= |q|
  {
    if q != [] && q[0].Some? { BehindShorter(q[1..]); }
  }

  /** Until it is stopped, the recorder has accepted or counted as dropped every line it was offered, and its queue has
      never held more than 65536. */
  lemma {:induction false} OfferedIsKept(es: seq<Event>)
    requires !StopAsked(es)
    ensures |Offered(es)| == |Accepted(es)| + OnEvents(es).dropped && |OnEvents(es).queue| <= 65536
  {
    if es != [] {
      var init := es[..|es| - 1];
      assert es == init + [es[|es| - 1]];
      assert forall e <- init :: e in es;
      OfferedIsKept(init);
      EventKeeps(OnEvents(init), es[|es| - 1]);
    }
  }

  lemma EventKeeps(r: Tape, e: Event)
    requires !e.Stop? && |r.queue| <= 65536
    ensures |OnEvent(r, e).queue| <= 65536
    ensures OnEvent(r, e).dropped == r.dropped + if e.Record? && |r.queue| == 65536 then 1 else 0
  {
    BehindShorter(r.queue);
  }

  /** With no stop and no drops, what is accepted is everything that was recorded. */
  lemma {:induction false} NothingDropped(es: seq<Event>)
    requires OnEvents(es).dropped == 0 && !StopAsked(es)
    ensures Accepted(es) == Offered(es)
  {
    if es != [] {
      var init, e := es[..|es| - 1], es[|es| - 1];
      assert es == init + [e];
      DropsStay(OnEvents(init), e);
      NothingDropped(init);
    }
  }
}
