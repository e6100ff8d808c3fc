/** drafter/generation_state.py, load_completed, over the lines of any file whatever. */
module LogLines {
  import opened ByteStrings
  import opened ResumableLog

  function Joined(lines: seq<Bytes>): Bytes {
    if lines == [] then [] else Joined(lines[..|lines| - 1]) + lines[|lines| - 1]
  }

  /** What readline returns one after the other: each line ends with its newline, which is the only one in it;
      the last line may lack it. */
  ghost predicate LinesOf(data: Bytes, lines: seq<Bytes>) {
    && Joined(lines) == data
    && (forall i :: 0 <= i < |lines| ==> IsLine(lines[i]))
    && (forall i :: 0 <= i < |lines| - 1 ==> Ends(lines[i]))
  }

  ghost predicate IsLine(line: Bytes) {
    line != [] && forall k :: 0 <= k < |line| - 1 ==> line[k] != NEWLINE
  }

  predicate Ends(line: Bytes) {
    line != [] && line[|line| - 1] == NEWLINE
  }

  /** Every file has its lines. */
  lemma {:induction false} HasLines(data: Bytes) returns (lines: seq<Bytes>)
    ensures LinesOf(data, lines)
    decreases |data|
  {
    if data == [] {
      lines := [];
    } else {
      var k := |data| - 1;
      var before := HasLines(data[..k]);
      assert data == data[..k] + [data[k]];
      if before == [] || Ends(before[|before| - 1]) {
        lines := before + [[data[k]]];
        assert lines[..|lines| - 1] == before;
      } else {
        lines := before[..|before| - 1] + [before[|before| - 1] + [data[k]]];
        assert lines[..|lines| - 1] == before[..|before| - 1];
      }
    }
  }

  lemma {:induction false} JoinedPrefix(lines: seq<Bytes>, k: nat)
    requires k < |lines|
    ensures var a, b := |Joined(lines[..k])|, |Joined(lines[..k + 1])|;
            && b == a + |lines[k]| && b <= |Joined(lines)| && Joined(lines)[a..b] == lines[k]
            && Joined(lines)[..a] == Joined(lines[..k])
  {
    var n := |lines| - 1;
    assert lines[..k + 1][..k] == lines[..k];
    if k < n {
      JoinedPrefix(lines[..n], k);
      assert lines[..n][..k] == lines[..k] && lines[..n][..k + 1] == lines[..k + 1];
      var a, b := |Joined(lines[..k])|, |Joined(lines[..k + 1])|;
      assert Joined(lines)[a..b] == Joined(lines[..n])[a..b];
      assert Joined(lines)[..a] == Joined(lines[..n])[..a];
    } else {
      assert lines[..k + 1] == lines;
    }
  }

  // ---- what loading does

  /** A line that is an error: an object without an id, or one that does not parse and is not the last. */
  predicate Bad(c: Codec, lines: seq<Bytes>, i: nat)
    requires i < |lines|
  {
    c.loads(lines[i]) == NoId || (c.loads(lines[i]) == Invalid && i < |lines| - 1)
  }

  ghost predicate HasId(c: Codec, lines: seq<Bytes>, from: nat, id: int) {
    exists i: nat :: from <= i < |lines| && c.loads(lines[i]) == Found(id)
  }

  /** The file that is left: without a last line that does not parse, and with a newline at its end. */
  function Repaired(c: Codec, lines: seq<Bytes>): Bytes {
    if lines == [] then []
    else if c.loads(lines[|lines| - 1]) == Invalid then Joined(lines[..|lines| - 1])
    else Joined(lines) + (if Ends(lines[|lines| - 1]) then [] else [NEWLINE])
  }

  /** From line `from` on: the ids of all lines, or the first error. */
  ghost predicate LoadsLines(c: Codec, lines: seq<Bytes>, from: nat, done: set<int>, r: Outcome) {
    match r
    case Loaded(ids, data) =>
      && (forall i: nat :: from <= i < |lines| ==> !Bad(c, lines, i))
      && (forall id :: id in ids <==> id in done || HasId(c, lines, from, id))
      && data == Repaired(c, lines)
    case Failure(offset) =>
      exists i: nat :: from <= i < |lines| && FirstBad(c, lines, from, i) && offset == |Joined(lines[..i])|
  }

  ghost predicate FirstBad(c: Codec, lines: seq<Bytes>, from: nat, i: nat)
    requires i < |lines|
  {
    Bad(c, lines, i) && forall j: nat :: from <= j < i ==> !Bad(c, lines, j)
  }

  lemma LineInside(data: Bytes, a: nat, b: nat, line: Bytes)
    requires a < b <= |data| && data[a..b] == line && IsLine(line)
    ensures forall x :: a <= x < b - 1 ==> data[x] != NEWLINE
    ensures data[b - 1] == line[|line| - 1]
  {
    forall x | a <= x < b ensures data[x] == line[x - a] {
      assert data[x] == data[a..b][x - a];
    }
  }

  lemma LineAt(data: Bytes, lines: seq<Bytes>, k: nat)
    requires LinesOf(data, lines) && k < |lines|
    ensures var a, b := |Joined(lines[..k])|, |Joined(lines[..k + 1])|;
            && a < b <= |data| && LineEnd(data, a) == b && data[a..b] == lines[k] && data[..a] == Joined(lines[..k])
            && (b == |data| <==> k == |lines| - 1)
  {
    var a, b := |Joined(lines[..k])|, |Joined(lines[..k + 1])|;
    JoinedPrefix(lines, k);
    assert IsLine(lines[k]);
    LineInside(data, a, b, lines[k]);
    LastReachesEnd(lines, k);
    if k < |lines| - 1 {
      assert Ends(lines[k]);
    }
    LineEndIs(data, a, b);
  }

  lemma LastReachesEnd(lines: seq<Bytes>, k: nat)
    requires k < |lines| && forall i :: 0 <= i < |lines| ==> IsLine(lines[i])
    ensures |Joined(lines[..k + 1])| == |Joined(lines)| <==> k == |lines| - 1
  {
    if k < |lines| - 1 {
      JoinedPrefix(lines, k + 1);
      assert IsLine(lines[k + 1]);
    } else {
      assert lines[..k + 1] == lines;
    }
  }

  /** One line of the loop. */
  lemma ScanOne(c: Codec, data: Bytes, lines: seq<Bytes>, k: nat, done: set<int>, needs: bool)
    requires LinesOf(data, lines) && k < |lines|
    ensures var a, b := |Joined(lines[..k])|, |Joined(lines[..k + 1])|;
            && a <= b <= |data|
            && Scan(c, data, a, done, needs)
               == match c.loads(lines[k])
                  case Found(id) => Scan(c, data, b, done + {id}, !Ends(lines[k]))
                  case NoId => Failure(a)
                  case Invalid => if k < |lines| - 1 then Failure(a) else Loaded(done, Joined(lines[..k]))
  {
    LineAt(data, lines, k);
    var a, b := |Joined(lines[..k])|, |Joined(lines[..k + 1])|;
    assert data[b - 1] == data[a..b][|lines[k]| - 1];
  }

  lemma AllScanned(c: Codec, data: Bytes, lines: seq<Bytes>, done: set<int>)
    requires LinesOf(data, lines) && (lines != [] ==> c.loads(lines[|lines| - 1]).Found?)
    ensures LoadsLines(c, lines, |lines|, done,
                       Scan(c, data, |data|, done, lines != [] && !Ends(lines[|lines| - 1])))
  {
  }

  lemma {:induction false} ScanLines(c: Codec, data: Bytes, lines: seq<Bytes>, k: nat, done: set<int>)
    requires LinesOf(data, lines) && k <= |lines|
    requires k > 0 ==> c.loads(lines[k - 1]).Found?
    ensures var pos := |Joined(lines[..k])|;
            pos <= |data|
            && LoadsLines(c, lines, k, done, Scan(c, data, pos, done, k > 0 && !Ends(lines[k - 1])))
    decreases |lines| - k
  {
    if k == |lines| {
      assert lines[..k] == lines;
      AllScanned(c, data, lines, done);
    } else {
      ScanOne(c, data, lines, k, done, k > 0 && !Ends(lines[k - 1]));
      if c.loads(lines[k]).Found? {
        var id, b := c.loads(lines[k]).id, |Joined(lines[..k + 1])|;
        ScanLines(c, data, lines, k + 1, done + {id});
        OneLineMore(c, lines, k, id, done, Scan(c, data, b, done + {id}, !Ends(lines[k])));
      } else if c.loads(lines[k]) == NoId {
        assert FirstBad(c, lines, k, k);
      } else {
        LastInvalid(c, lines, k, done);
      }
    }
  }

  lemma LastInvalid(c: Codec, lines: seq<Bytes>, k: nat, done: set<int>)
    requires k < |lines| && c.loads(lines[k]) == Invalid
    ensures if k < |lines| - 1 then FirstBad(c, lines, k, k)
            else LoadsLines(c, lines, k, done, Loaded(done, Joined(lines[..k])))
  {
    if k == |lines| - 1 {
      forall id ensures !HasId(c, lines, k, id) {
        forall i: nat | k <= i < |lines| ensures c.loads(lines[i]) != Found(id) {
        }
      }
    }
  }

  lemma OneLineMore(c: Codec, lines: seq<Bytes>, k: nat, id: int, done: set<int>, r: Outcome)
    requires k < |lines| && c.loads(lines[k]) == Found(id) && LoadsLines(c, lines, k + 1, done + {id}, r)
    ensures LoadsLines(c, lines, k, done, r)
  {
    match r
    case Loaded(ids, data) =>
      forall x ensures x in ids <==> x in done || HasId(c, lines, k, x) {
        if HasId(c, lines, k, x) {
          var i: nat :| k <= i < |lines| && c.loads(lines[i]) == Found(x);
          assert i > k ==> HasId(c, lines, k + 1, x);
        }
        if HasId(c, lines, k + 1, x) {
          var i: nat :| k + 1 <= i < |lines| && c.loads(lines[i]) == Found(x);
        }
      }
    case Failure(offset) =>
      var i: nat :| k + 1 <= i < |lines| && FirstBad(c, lines, k + 1, i) && offset == |Joined(lines[..i])|;
      assert FirstBad(c, lines, k, i);
  }

  /** For any file: loading succeeds if and only if every line but the last has an id, and the last has one or
      does not parse. Then the ids are those of the lines that parse, and all that may be lost is the last
      line. Otherwise it fails at the first line that is an error, and nothing is changed. */
  lemma LoadIsLineByLine(c: Codec, data: Bytes, lines: seq<Bytes>)
    requires LinesOf(data, lines)
    ensures Load(c, data).Loaded?
       <==> forall i: nat :: i < |lines| ==>
              c.loads(lines[i]).Found? || (i == |lines| - 1 && c.loads(lines[i]) == Invalid)
    ensures Load(c, data).Loaded? ==>
      forall id :: id in Load(c, data).done <==> exists i: nat :: i < |lines| && c.loads(lines[i]) == Found(id)
    ensures Load(c, data).Loaded? ==> Load(c, data).data == Repaired(c, lines)
    ensures Load(c, data).Failure? ==>
      exists i: nat :: i < |lines| && FirstBad(c, lines, 0, i) && Load(c, data).offset == |Joined(lines[..i])|
  {
    assert lines[..0] == [];
    ScanLines(c, data, lines, 0, {});
    var r := Load(c, data);
    assert LoadsLines(c, lines, 0, {}, r);
    forall i: nat | i < |lines|
      ensures !Bad(c, lines, i)
         <==> c.loads(lines[i]).Found? || (i == |lines| - 1 && c.loads(lines[i]) == Invalid)
    {
    }
    if r.Loaded? {
      forall id ensures id in r.done <==> exists i: nat :: i < |lines| && c.loads(lines[i]) == Found(id) {
        assert id in r.done <==> HasId(c, lines, 0, id);
      }
    } else {
      var i: nat :| i < |lines| && FirstBad(c, lines, 0, i) && r.offset == |Joined(lines[..i])|;
      assert Bad(c, lines, i);
    }
  }
}
