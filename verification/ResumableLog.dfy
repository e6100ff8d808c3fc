/** drafter/generation_state.py (load_completed) and the resume loop of drafter/gen_data.py: a JSONL file
    that runs only append to, torn at any byte by a kill. */
module ResumableLog {
  import opened ByteStrings

  /** A record: the id of its prompt, and the rest of what generation put into it. */
  datatype Rec = Rec(id: int, body: int)

  /** json.loads of a line: a ValueError, a value that is no object with an id, or a record's id. */
  datatype Parsed = Invalid | NoId | Found(id: int)

  datatype Codec = Codec(dumps: Rec -> Bytes, loads: Bytes -> Parsed)

  /** What the log needs of JSON: a record is one line that parses to its id, with or without the
      newline, and no shorter start of it parses. A trailing newline never matters to a parse. */
  ghost predicate Lawful(c: Codec) {
    && (forall r :: c.dumps(r) != [] && NEWLINE !in c.dumps(r) && c.loads(c.dumps(r)) == Found(r.id))
    && (forall r, k :: 0 < k < |c.dumps(r)| ==> c.loads(c.dumps(r)[..k]) == Invalid)
    && (forall line :: c.loads(line + [NEWLINE]) == c.loads(line))
  }

  // ---- load_completed

  /** readline: the position after the next newline, or the end of the file. */
  function LineEnd(data: Bytes, pos: nat): (end: nat)
    requires pos < |data|
    ensures pos < end <= |data|
    ensures forall k :: pos <= k < end - 1 ==> data[k] != NEWLINE
    ensures end < |data| ==> data[end - 1] == NEWLINE
    decreases |data| - pos
  {
    if data[pos] == NEWLINE || pos + 1 == |data| then pos + 1 else LineEnd(data, pos + 1)
  }

  /** What loading does: it fails and changes nothing, or returns the ids and repairs the file. */
  datatype Outcome = Failure(offset: nat) | Loaded(done: set<int>, data: Bytes)

  function Scan(c: Codec, data: Bytes, pos: nat, done: set<int>, needsNewline: bool): Outcome
    requires pos <= |data|
    decreases |data| - pos
  {
    if pos == |data| then Loaded(done, if needsNewline then data + [NEWLINE] else data)
    else
      var end := LineEnd(data, pos);
      match c.loads(data[pos..end])
      case Invalid => if end < |data| then Failure(pos) else Loaded(done, data[..pos])
      case NoId => Failure(pos)
      case Found(id) => Scan(c, data, end, done + {id}, data[end - 1] != NEWLINE)
  }

  /** One line of the scan. */
  lemma ScanUnfolds(c: Codec, data: Bytes, pos: nat, end: nat, done: set<int>, needsNewline: bool)
    requires pos < |data| && end == LineEnd(data, pos)
    ensures var r := Scan(c, data, pos, done, needsNewline);
            match c.loads(data[pos..end])
            case Invalid => r == if end < |data| then Failure(pos) else Loaded(done, data[..pos])
            case NoId => r == Failure(pos)
            case Found(id) => r == Scan(c, data, end, done + {id}, data[end - 1] != NEWLINE)
  {
  }

  /** Loading a file, which may not exist. */
  function Load(c: Codec, data: Bytes): Outcome {
    Scan(c, data, 0, {}, false)
  }

  /** The output file: its bytes, and how many more a run may write before it is killed. */
  class File {
    var present: bool
    var data: Bytes
    var budget: nat

    constructor (data: Bytes, budget: nat)
      ensures present && this.data == data && this.budget == budget
    {
      present, this.data, this.budget := true, data, budget;
    }

    /** Bytes reach the disk in order; a kill cuts them anywhere. */
    method Append(b: Bytes)
      modifies this
      ensures present == old(present)
      ensures data == old(data) + Cut(b, old(budget))
      ensures budget == old(budget) - |Cut(b, old(budget))|
    {
      var n := if |b| < budget then |b| else budget;
      data := data + b[..n];
      budget := budget - n;
    }

    /** load_completed: on failure the file is as it was. */
    method LoadCompleted(c: Codec) returns (r: Outcome)
      requires !present ==> data == []
      modifies this
      ensures r == Load(c, old(data))
      ensures present == old(present) && budget == old(budget)
      ensures data == if r.Loaded? then r.data else old(data)
    {
      if !present {
        return Loaded({}, []);
      }
      var done := {};
      var needsNewline, truncated := false, false;
      var pos := 0;
      while pos < |data| && !truncated
        invariant pos <= |data|
        invariant !truncated ==> data == old(data) && Load(c, data) == Scan(c, data, pos, done, needsNewline)
        invariant truncated ==> !needsNewline && Load(c, old(data)) == Loaded(done, data)
        invariant needsNewline ==> pos == |data|
        invariant present == old(present) && budget == old(budget)
        decreases !truncated, |data| - pos
      {
        var end := LineEnd(data, pos);
        var line := data[pos..end];
        ScanUnfolds(c, data, pos, end, done, needsNewline);
        assert line[|line| - 1] == data[end - 1];
        match c.loads(line) {
          case Invalid =>
            if end < |data| {
              return Failure(pos);
            }
            data := data[..pos];
            truncated := true;
          case NoId =>
            return Failure(pos);
          case Found(id) =>
            done := done + {id};
            needsNewline := line[|line| - 1] != NEWLINE;
            pos := end;
        }
      }
      if needsNewline {
        data := data + [NEWLINE];
      }
      r := Loaded(done, data);
    }
  }

  function Cut(b: Bytes, n: nat): Bytes {
    if |b| < n then b else b[..n]
  }

  // ---- loading leaves a file that loads as it is

  lemma {:induction false} LineEndIs(data: Bytes, pos: nat, end: nat)
    requires pos < end <= |data| && (data[end - 1] == NEWLINE || end == |data|)
    requires forall k :: pos <= k < end - 1 ==> data[k] != NEWLINE
    ensures LineEnd(data, pos) == end
    decreases |data| - pos
  {
    if pos + 1 < end {
      LineEndIs(data, pos + 1, end);
    }
  }

  lemma SamePrefix(a: Bytes, b: Bytes, n: nat, k: nat)
    requires k < n <= |a| && n <= |b| && a[..n] == b[..n]
    ensures a[k] == b[k]
  {
    assert a[..n][k] == b[..n][k];
  }

  lemma SamePrefixes(a: Bytes, b: Bytes, n: nat)
    requires n <= |a| && n <= |b| && a[..n] == b[..n]
    ensures forall k :: 0 <= k < n ==> a[k] == b[k]
  {
    forall k | 0 <= k < n ensures a[k] == b[k] {
      SamePrefix(a, b, n, k);
    }
  }

  /** A line that both files hold, newline included, is read the same from both. */
  lemma SameLine(a: Bytes, b: Bytes, pos: nat)
    requires pos < |a| && LineEnd(a, pos) <= |b| && a[..LineEnd(a, pos)] == b[..LineEnd(a, pos)]
    requires a[LineEnd(a, pos) - 1] == NEWLINE
    ensures LineEnd(b, pos) == LineEnd(a, pos) && b[pos..LineEnd(a, pos)] == a[pos..LineEnd(a, pos)]
  {
    var end := LineEnd(a, pos);
    SamePrefixes(a, b, end);
    LineEndIs(b, pos, end);
    assert b[pos..end] == b[..end][pos..] && a[pos..end] == a[..end][pos..];
  }

  /** A last line without a newline is read again once it has one. */
  lemma LastLine(c: Codec, data: Bytes, pos: nat, done: set<int>, id: int)
    requires Lawful(c) && pos < |data| && LineEnd(data, pos) == |data| && data[|data| - 1] != NEWLINE
    requires c.loads(data[pos..]) == Found(id)
    ensures Scan(c, data + [NEWLINE], pos, done, false) == Loaded(done + {id}, data + [NEWLINE])
  {
    var whole := data + [NEWLINE];
    LineEndIs(whole, pos, |whole|);
    assert whole[pos..|whole|] == data[pos..] + [NEWLINE];
  }

  lemma ShorterPrefix(a: Bytes, b: Bytes, n: nat, m: nat)
    requires m <= n <= |a| && n <= |b| && a[..n] == b[..n]
    ensures a[..m] == b[..m]
  {
    assert a[..m] == a[..n][..m] && b[..m] == b[..n][..m];
  }

  lemma ScanFound(c: Codec, data: Bytes, pos: nat, end: nat, done: set<int>, id: int)
    requires pos < |data| && end == LineEnd(data, pos) && data[end - 1] == NEWLINE
    requires c.loads(data[pos..end]) == Found(id)
    ensures Scan(c, data, pos, done, false) == Scan(c, data, end, done + {id}, false)
  {
  }

  /** A whole line at pos is read first, whatever follows it. */
  lemma WholeLine(c: Codec, data: Bytes, data': Bytes, pos: nat, end: nat, done: set<int>, id: int)
    requires pos < |data| && end == LineEnd(data, pos) && data[end - 1] == NEWLINE
    requires c.loads(data[pos..end]) == Found(id)
    requires end <= |data'| && data'[..end] == data[..end]
    ensures Scan(c, data', pos, done, false) == Scan(c, data', end, done + {id}, false)
    ensures data'[..pos] == data[..pos]
  {
    SameLine(data, data', pos);
    SamePrefix(data, data', end, end - 1);
    ScanFound(c, data', pos, end, done, id);
    ShorterPrefix(data', data, end, pos);
  }

  lemma {:induction false} ScanIsStable(c: Codec, data: Bytes, pos: nat, done: set<int>)
    requires Lawful(c) && pos <= |data| && Scan(c, data, pos, done, false).Loaded?
    ensures var r := Scan(c, data, pos, done, false);
            pos <= |r.data| && r.data[..pos] == data[..pos] && Scan(c, r.data, pos, done, false) == r
    decreases |data| - pos
  {
    if pos < |data| {
      var end := LineEnd(data, pos);
      var r := Scan(c, data, pos, done, false);
      var p := c.loads(data[pos..end]);
      if p.Found? && data[end - 1] == NEWLINE {
        ScanIsStable(c, data, end, done + {p.id});
        WholeLine(c, data, r.data, pos, end, done, p.id);
      } else if p.Found? {
        assert data[pos..end] == data[pos..];
        LastLine(c, data, pos, done, p.id);
      }
    }
  }

  /** Loading any file, if it does not fail, leaves one that loads to the same ids unchanged: whole
      records whose ids are exactly those returned. */
  lemma LoadIsStable(c: Codec, data: Bytes)
    requires Lawful(c) && Load(c, data).Loaded?
    ensures Load(c, Load(c, data).data) == Load(c, data)
  {
    ScanIsStable(c, data, 0, {});
  }

  // ---- logs and torn logs

  /** Whole records, one a line. */
  function Text(c: Codec, recs: seq<Rec>): Bytes {
    if recs == [] then [] else c.dumps(recs[0]) + [NEWLINE] + Text(c, recs[1..])
  }

  function Ids(recs: seq<Rec>): set<int> {
    set r <- recs :: r.id
  }

  lemma {:induction false} TextAppend(c: Codec, a: seq<Rec>, b: seq<Rec>)
    ensures Text(c, a + b) == Text(c, a) + Text(c, b)
  {
    if a == [] {
      assert a + b == b;
    } else {
      assert (a + b)[1..] == a[1..] + b;
      TextAppend(c, a[1..], b);
    }
  }

  /** One whole record at pos. */
  lemma ScanRecord(c: Codec, pre: Bytes, r: Rec, rest: Bytes, done: set<int>)
    requires Lawful(c)
    ensures var line := c.dumps(r) + [NEWLINE];
            Scan(c, pre + line + rest, |pre|, done, false)
            == Scan(c, pre + line + rest, |pre + line|, done + {r.id}, false)
  {
    var line := c.dumps(r) + [NEWLINE];
    var data := pre + line + rest;
    forall k | |pre| <= k < |pre + line| - 1 ensures data[k] != NEWLINE {
      assert data[k] == c.dumps(r)[k - |pre|];
    }
    LineEndIs(data, |pre|, |pre + line|);
    assert data[|pre|..|pre + line|] == line;
  }

  lemma Reassociate(pre: Bytes, line: Bytes, rest: Bytes, tail: Bytes)
    ensures pre + (line + rest) + tail == pre + line + (rest + tail)
    ensures pre + (line + rest) + tail == (pre + line) + rest + tail
    ensures (pre + line) + rest == pre + (line + rest)
  {
  }

  lemma IdsFirst(recs: seq<Rec>, done: set<int>)
    requires recs != []
    ensures done + {recs[0].id} + Ids(recs[1..]) == done + Ids(recs)
  {
    assert recs == [recs[0]] + recs[1..];
  }

  lemma {:induction false} ScanText(c: Codec, pre: Bytes, recs: seq<Rec>, tail: Bytes, done: set<int>)
    requires Lawful(c)
    ensures var data := pre + Text(c, recs) + tail;
            Scan(c, data, |pre + Text(c, recs)|, done + Ids(recs), false) == Scan(c, data, |pre|, done, false)
    decreases |recs|
  {
    if recs == [] {
      assert pre + Text(c, recs) == pre;
      assert done + Ids(recs) == done;
    } else {
      var line, rest := c.dumps(recs[0]) + [NEWLINE], Text(c, recs[1..]);
      Reassociate(pre, line, rest, tail);
      ScanRecord(c, pre, recs[0], rest + tail, done);
      ScanText(c, pre + line, recs[1..], tail, done + {recs[0].id});
      IdsFirst(recs, done);
    }
  }

  /** A start of a record's line, newline excluded. */
  ghost predicate TornTail(c: Codec, tail: Bytes, r: Rec) {
    |tail| <= |c.dumps(r)| && tail == c.dumps(r)[..|tail|]
  }

  /** The records of a log after loading: a record that only lacks its newline is kept. */
  function Kept(c: Codec, recs: seq<Rec>, tail: Bytes, r: Rec): seq<Rec> {
    if tail == c.dumps(r) then recs + [r] else recs
  }

  lemma OneMore(c: Codec, recs: seq<Rec>, r: Rec)
    ensures Text(c, recs + [r]) == Text(c, recs) + c.dumps(r) + [NEWLINE]
    ensures Ids(recs + [r]) == Ids(recs) + {r.id}
  {
    TextAppend(c, recs, [r]);
    assert Text(c, [r]) == c.dumps(r) + [NEWLINE];
  }

  /** A torn tail is dropped, and a record that only lacks its newline gets it. */
  lemma ScanTail(c: Codec, pre: Bytes, tail: Bytes, r: Rec, done: set<int>)
    requires Lawful(c) && TornTail(c, tail, r)
    ensures Scan(c, pre + tail, |pre|, done, false)
         == if tail == c.dumps(r) then Loaded(done + {r.id}, pre + tail + [NEWLINE]) else Loaded(done, pre)
  {
    var data, pos := pre + tail, |pre|;
    assert c.dumps(r)[..|c.dumps(r)|] == c.dumps(r);
    if tail == [] {
      assert data == pre;
    } else {
      forall k | pos <= k < |data| ensures data[k] != NEWLINE {
        assert data[k] == c.dumps(r)[k - pos];
      }
      LineEndIs(data, pos, |data|);
      assert data[pos..|data|] == tail;
      assert data[..pos] == pre;
    }
  }

  /** Loading a torn log returns the ids of every fully written record and leaves exactly those. */
  lemma LoadTorn(c: Codec, recs: seq<Rec>, tail: Bytes, r: Rec)
    requires Lawful(c) && TornTail(c, tail, r)
    ensures var kept := Kept(c, recs, tail, r);
            Load(c, Text(c, recs) + tail) == Loaded(Ids(kept), Text(c, kept))
  {
    var pre := Text(c, recs);
    assert [] + pre == pre && {} + Ids(recs) == Ids(recs);
    ScanText(c, [], recs, tail, {});
    ScanTail(c, pre, tail, r, Ids(recs));
    OneMore(c, recs, r);
  }

  // ---- resuming

  /** A prompt, and whether its template renders within the token limit. */
  datatype Prompt = Prompt(id: int, accepted: bool)

  /** One run: how many prompts it is limited to (0 for all), what it generates for each of its
      remaining prompts, and how many bytes it appends before it is killed. */
  datatype Run = Run(limit: nat, body: nat -> int, cut: nat)

  function Limited(prompts: seq<Prompt>, limit: nat): seq<Prompt> {
    if limit == 0 || |prompts| < limit then prompts else prompts[..limit]
  }

  function Todo(prompts: seq<Prompt>, done: set<int>): (r: seq<Prompt>)
    ensures forall p <- r :: p in prompts && p.id !in done
  {
    if prompts == [] then []
    else (if prompts[0].id !in done then [prompts[0]] else []) + Todo(prompts[1..], done)
  }

  /** The records of the accepted ones among the first n of todo. */
  function Batch(todo: seq<Prompt>, body: nat -> int, n: nat): seq<Rec>
    requires n <= |todo|
  {
    if n == 0 then []
    else Batch(todo, body, n - 1) + (if todo[n - 1].accepted then [Rec(todo[n - 1].id, body(n - 1))] else [])
  }

  /** What a run would append. */
  function Output(prompts: seq<Prompt>, done: set<int>, run: Run): seq<Rec> {
    var todo := Todo(Limited(prompts, run.limit), done);
    Batch(todo, run.body, |todo|)
  }

  /** The file after a run: loaded, and appended to up to the cut. */
  function AfterRun(c: Codec, data: Bytes, prompts: seq<Prompt>, run: Run): Bytes {
    match Load(c, data)
    case Failure(_) => data
    case Loaded(done, d) => d + Cut(Text(c, Output(prompts, done, run)), run.cut)
  }

  function AfterRuns(c: Codec, prompts: seq<Prompt>, runs: seq<Run>): Bytes {
    if runs == [] then [] else AfterRun(c, AfterRuns(c, prompts, runs[..|runs| - 1]), prompts, runs[|runs| - 1])
  }

  /** generate(): resume, then append a record for every prompt that has none, chunk by chunk. A
      file that does not load stops the run before anything is written. */
  method Generate(file: File, c: Codec, prompts: seq<Prompt>, limit: nat, body: nat -> int, chunk: nat)
      returns (ok: bool)
    requires 0 < chunk && (!file.present ==> file.data == [])
    modifies file
    ensures ok <==> Load(c, old(file.data)).Loaded?
    ensures file.data == AfterRun(c, old(file.data), prompts, Run(limit, body, old(file.budget)))
  {
    var r := file.LoadCompleted(c);
    if r.Failure? {
      return false;
    }
    ghost var start, budget := file.data, file.budget;
    var todo := Todo(Limited(prompts, limit), r.done);
    file.present := true;
    var i := 0;
    assert start + Cut(Text(c, []), budget) == start;
    while i < |todo|
      invariant 0 <= i <= |todo|
      invariant Appended(c, file.data, file.budget, start, budget, Batch(todo, body, i))
    {
      var hi := if i + chunk < |todo| then i + chunk else |todo|;
      GenerateChunk(file, c, todo, body, i, hi, start, budget);
      i := hi;
    }
    ok := true;
  }

  /** One chunk: a record for each of its accepted prompts. */
  method GenerateChunk(file: File, c: Codec, todo: seq<Prompt>, body: nat -> int, from: nat, to: nat,
                       ghost start: Bytes, ghost budget: nat)
    requires from <= to <= |todo| && Appended(c, file.data, file.budget, start, budget, Batch(todo, body, from))
    modifies file
    ensures Appended(c, file.data, file.budget, start, budget, Batch(todo, body, to))
  {
    for k := from to to
      invariant Appended(c, file.data, file.budget, start, budget, Batch(todo, body, k))
    {
      if todo[k].accepted {
        var rec := Rec(todo[k].id, body(k));
        AppendOne(c, file.data, file.budget, start, budget, Batch(todo, body, k), rec);
        file.Append(c.dumps(rec) + [NEWLINE]);
      } else {
        assert Batch(todo, body, k + 1) == Batch(todo, body, k);
      }
    }
  }

  /** The file and the bytes left to write after a run has produced recs. */
  ghost predicate Appended(c: Codec, data: Bytes, budget: nat, start: Bytes, budget0: nat, recs: seq<Rec>) {
    data == start + Cut(Text(c, recs), budget0) && budget == budget0 - |Cut(Text(c, recs), budget0)|
  }

  lemma AppendOne(c: Codec, data: Bytes, budget: nat, start: Bytes, budget0: nat, recs: seq<Rec>, r: Rec)
    requires Appended(c, data, budget, start, budget0, recs)
    ensures var line := c.dumps(r) + [NEWLINE];
            Appended(c, data + Cut(line, budget), budget - |Cut(line, budget)|, start, budget0, recs + [r])
  {
    OneMore(c, recs, r);
    var a, line := Text(c, recs), c.dumps(r) + [NEWLINE];
    assert Text(c, recs + [r]) == a + line;
    assert Cut(a, budget0) + Cut(line, budget) == Cut(a + line, budget0);
  }
}
