// The run history: a file of newline-separated records that is read and
// rewritten whole.

module History {
  import opened Octets
  import opened Options

  const NEWLINE: byte := 10

  /** How one record is written to and read from a line.  Writing may fail; reading back gives the record
      with its measurements rounded. */
  datatype Codec<!R> = Codec(encode: R -> Option<seq<byte>>, decode: seq<byte> -> Option<R>, id: R -> string, round: R -> R)

  /** What the model takes from JSON: a record is one non-empty line without a newline, and reading it back
      rounds the record once and for all without touching its id. */
  ghost predicate ValidCodec<R(!new)>(c: Codec<R>) {
    && (forall r :: c.encode(r).Some? ==>
         && c.encode(r).value != [] && NEWLINE !in c.encode(r).value
         && c.decode(c.encode(r).value) == Some(c.round(r)))
    && (forall r :: c.id(c.round(r)) == c.id(r))
    && (forall r :: c.round(c.round(r)) == c.round(r))
    && (forall r :: c.encode(r).Some? ==> c.encode(c.round(r)).Some?)
  }

  // ----- lines and records --------------------------------------------------

  function LineEnd(data: seq<byte>): (n: nat)
    ensures n <= |data| && (forall k :: 0 <= k < n ==> data[k] != NEWLINE) && (n < |data| ==> data[n] == NEWLINE)
  {
    if data == [] || data[0] == NEWLINE then 0 else 1 + LineEnd(data[1..])
  }

  /** The lines of a file; a trailing newline opens no further line. */
  function Lines(data: seq<byte>): seq<seq<byte>>
    decreases |data|
  {
    if data == [] then []
    else
      var n := LineEnd(data);
      if n == |data| then [data] else [data[..n]] + Lines(data[n + 1..])
  }

  function RecordOf<R>(c: Codec<R>, line: seq<byte>): Option<R> {
    if line == [] then None else c.decode(line)
  }

  function Records<R>(c: Codec<R>, lines: seq<seq<byte>>): seq<R> {
    if lines == [] then []
    else
      var rest := Records(c, lines[1..]);
      match RecordOf(c, lines[0]) case None => rest case Some(r) => [r] + rest
  }

  function Load<R>(c: Codec<R>, data: seq<byte>): seq<R> {
    Records(c, Lines(data))
  }

  function Serialise<R>(c: Codec<R>, runs: seq<R>): Option<seq<byte>> {
    if runs == [] then Some([])
    else match c.encode(runs[0])
      case None => None
      case Some(line) => Prefixed(line + [NEWLINE], Serialise(c, runs[1..]))
  }

  function Prefixed(a: seq<byte>, b: Option<seq<byte>>): (r: Option<seq<byte>>)
    ensures a == [] ==> r == b
    ensures b == Some([]) ==> r == Some(a)
  {
    match b
    case None => None
    case Some(rest) =>
      assert a == [] ==> a + rest == rest;
      assert rest == [] ==> a + rest == a;
      Some(a + rest)
  }

  lemma PrefixedTwice(a: seq<byte>, b: seq<byte>, rest: Option<seq<byte>>)
    ensures Prefixed(a, Prefixed(b, rest)) == Prefixed(a + b, rest)
  {
    if rest.Some? {
      assert a + (b + rest.value) == (a + b) + rest.value;
    }
  }

  function Rounded<R>(c: Codec<R>, runs: seq<R>): seq<R> {
    seq(|runs|, i requires 0 <= i < |runs| => c.round(runs[i]))
  }

  lemma LineEndIs(data: seq<byte>, n: nat)
    requires n <= |data| && (forall k :: 0 <= k < n ==> data[k] != NEWLINE) && (n < |data| ==> data[n] == NEWLINE)
    ensures LineEnd(data) == n
  {
  }

  lemma CodecAt<R(!new)>(c: Codec<R>, r: R)
    requires ValidCodec(c) && c.encode(r).Some?
    ensures c.encode(r).value != [] && NEWLINE !in c.encode(r).value
    ensures RecordOf(c, c.encode(r).value) == Some(c.round(r))
  {
  }

  /** Writing and reading back gives every record, rounded, in order, and one line each. */
  lemma {:induction false} RoundTrip<R(!new)>(c: Codec<R>, runs: seq<R>)
    requires ValidCodec(c) && Serialise(c, runs).Some?
    ensures Load(c, Serialise(c, runs).value) == Rounded(c, runs)
    ensures |Lines(Serialise(c, runs).value)| == |runs|
    ensures runs != [] ==> var data := Serialise(c, runs).value; data != [] && data[|data| - 1] == 10
  {
    hide ValidCodec, Lines, RecordOf;
    if runs == [] {
      NoLines();
    } else {
      var line, rest := c.encode(runs[0]).value, Serialise(c, runs[1..]).value;
      var data := line + [NEWLINE] + rest;
      CodecAt(c, runs[0]);
      LinesStep(data, |line|);
      assert data[..|line|] == line && data[|line| + 1..] == rest;
      assert ([line] + Lines(rest))[1..] == Lines(rest);
      RoundTrip(c, runs[1..]);
      assert Rounded(c, runs) == [c.round(runs[0])] + Rounded(c, runs[1..]);
    }
  }

  lemma NoLines()
    ensures Lines([]) == []
  {
  }

  /** The first line and the rest of the file. */
  lemma LinesStep(data: seq<byte>, n: nat)
    requires n < |data| && (forall k :: 0 <= k < n ==> data[k] != NEWLINE) && data[n] == NEWLINE
    ensures Lines(data) == [data[..n]] + Lines(data[n + 1..])
  {
    LineEndIs(data, n);
  }

  lemma {:induction false} RecordsConcat<R>(c: Codec<R>, a: seq<seq<byte>>, b: seq<seq<byte>>)
    ensures Records(c, a + b) == Records(c, a) + Records(c, b)
  {
    hide RecordOf;
    if a == [] {
      assert a + b == b;
    } else {
      RecordsConcat(c, a[1..], b);
      assert (a + b)[1..] == a[1..] + b;
      var first := if RecordOf(c, a[0]).Some? then [RecordOf(c, a[0]).value] else [];
      assert first + (Records(c, a[1..]) + Records(c, b)) == (first + Records(c, a[1..])) + Records(c, b);
    }
  }

  lemma LoadStep<R>(c: Codec<R>, data: seq<byte>, n: nat)
    requires data != [] && n <= |data| && (forall k :: 0 <= k < n ==> data[k] != NEWLINE)
    requires n < |data| ==> data[n] == NEWLINE
    ensures var first := RecordOf(c, data[..n]);
      var rest := if n < |data| then Load(c, data[n + 1..]) else [];
      Load(c, data) == (if first.Some? then [first.value] else []) + rest
  {
    if n < |data| {
      LinesStep(data, n);
      RecordsConcat(c, [data[..n]], Lines(data[n + 1..]));
      SingleRecord(c, data[..n]);
    } else {
      LineEndIs(data, n);
      assert data[..n] == data;
      SingleRecord(c, data);
    }
  }

  lemma SingleRecord<R>(c: Codec<R>, line: seq<byte>)
    ensures Records(c, [line]) == (if RecordOf(c, line).Some? then [RecordOf(c, line).value] else [])
    ensures Records(c, []) == []
  {
  }

  lemma LoadEmpty<R>(c: Codec<R>)
    ensures Load(c, []) == []
  {
  }

  /** A newline separates what stands before it from what stands after it; a blank line is one more line
      when nothing stands before. */
  lemma {:induction false} LinesConcat(a: seq<byte>, b: seq<byte>)
    ensures Lines(a + [NEWLINE] + b)
         == (if a == [] then [[]] else if a[|a| - 1] == NEWLINE then Lines(a) + [[]] else Lines(a)) + Lines(b)
    decreases |a|
  {
    hide Lines;
    var data := a + [NEWLINE] + b;
    var n := LineEnd(a);
    LinesStep(data, n);
    if n == |a| {
      assert data[..|a|] == a && data[|a| + 1..] == b;
      SingleLine(a);
    } else {
      LinesStep(a, n);
      var rest := a[n + 1..];
      assert data[..n] == a[..n] && data[n + 1..] == rest + [NEWLINE] + b;
      LinesConcat(rest, b);
      SingleLine(rest);
      if rest != [] {
        assert rest[|rest| - 1] == a[|a| - 1];
      }
    }
  }

  lemma SingleLine(a: seq<byte>)
    ensures a == [] ==> Lines(a) == []
    ensures a != [] && (forall k :: 0 <= k < |a| ==> a[k] != NEWLINE) ==> Lines(a) == [a]
  {
    if forall k :: 0 <= k < |a| ==> a[k] != NEWLINE {
      LineEndIs(a, |a|);
    }
  }

  /** Loading is local to lines: what one part holds, malformed or not, cannot touch the other. */
  lemma LoadConcat<R>(c: Codec<R>, a: seq<byte>, b: seq<byte>)
    ensures Load(c, a + [NEWLINE] + b) == Load(c, a) + Load(c, b)
  {
    LinesConcat(a, b);
    var blank: seq<seq<byte>> := [[]];
    assert Records(c, blank) == [];
    if a == [] {
      RecordsConcat(c, blank, Lines(b));
    } else if a[|a| - 1] == NEWLINE {
      RecordsConcat(c, Lines(a) + blank, Lines(b));
      RecordsConcat(c, Lines(a), blank);
    } else {
      RecordsConcat(c, Lines(a), Lines(b));
    }
  }

  /** Counting lines never undercounts, and is exact precisely when every line holds a record. */
  lemma {:induction false} CountVersusLoad<R>(c: Codec<R>, lines: seq<seq<byte>>)
    ensures |Records(c, lines)| <= |lines|
    ensures |Records(c, lines)| == |lines| <==> forall i :: 0 <= i < |lines| ==> RecordOf(c, lines[i]).Some?
  {
    if lines != [] {
      CountVersusLoad(c, lines[1..]);
      var tail := lines[1..];
      assert forall i :: 1 <= i < |lines| ==> lines[i] == tail[i - 1];
      assert forall i :: 0 <= i < |tail| ==> tail[i] == lines[i + 1];
    }
  }

  // ----- the list the file stands for ---------------------------------------

  /** A limit of zero or less keeps everything. */
  function KeepLast<T>(runs: seq<T>, limit: int): seq<T> {
    if limit > 0 && |runs| > limit then runs[|runs| - limit..] else runs
  }

  /** What is kept is the newest end of the history, the new record included. */
  lemma KeepsNewest<T>(runs: seq<T>, rec: T, limit: int)
    ensures var kept := KeepLast(runs + [rec], limit);
      && kept == (runs + [rec])[|runs| + 1 - |kept|..] && kept[|kept| - 1] == rec
      && |kept| == if 0 < limit <= |runs| then limit else |runs| + 1
  {
  }

  predicate HasId<R>(c: Codec<R>, runs: seq<R>, id: string) {
    exists i :: 0 <= i < |runs| && c.id(runs[i]) == id
  }

  function Without<R>(c: Codec<R>, runs: seq<R>, id: string): seq<R> {
    if runs == [] then []
    else if c.id(runs[0]) == id then Without(c, runs[1..], id)
    else [runs[0]] + Without(c, runs[1..], id)
  }

  lemma {:induction false} WithoutMembers<R>(c: Codec<R>, runs: seq<R>, id: string)
    ensures forall r :: r in Without(c, runs, id) ==> r in runs && c.id(r) != id
  {
    if runs != [] {
      WithoutMembers(c, runs[1..], id);
      assert runs == [runs[0]] + runs[1..];
    }
  }

  /** Deleting an id is deleting it from every part of the history, and a history without it is left
      alone. */
  lemma {:induction false} WithoutConcat<R>(c: Codec<R>, a: seq<R>, b: seq<R>, id: string)
    ensures Without(c, a + b, id) == Without(c, a, id) + Without(c, b, id)
    ensures !HasId(c, a, id) <==> Without(c, a, id) == a
  {
    if a == [] {
      assert a + b == b;
    } else {
      WithoutConcat(c, a[1..], b, id);
      assert (a + b)[1..] == a[1..] + b;
      var first := if c.id(a[0]) == id then [] else [a[0]];
      assert first + (Without(c, a[1..], id) + Without(c, b, id)) == (first + Without(c, a[1..], id)) + Without(c, b, id);
      WithoutMembers(c, a, id);
      HasIdTail(c, a, id);
      if Without(c, a, id) == a {
        assert a[0] in a;
        assert a[1..] == Without(c, a, id)[1..] == Without(c, a[1..], id);
      }
    }
  }

  lemma HasIdTail<R>(c: Codec<R>, runs: seq<R>, id: string)
    requires runs != []
    ensures HasId(c, runs, id) <==> c.id(runs[0]) == id || HasId(c, runs[1..], id)
  {
    var tail := runs[1..];
    if HasId(c, tail, id) {
      var k :| 0 <= k < |tail| && c.id(tail[k]) == id;
      assert runs[k + 1] == tail[k];
    }
    if HasId(c, runs, id) && c.id(runs[0]) != id {
      var k :| 0 <= k < |runs| && c.id(runs[k]) == id;
      assert tail[k - 1] == runs[k];
    }
  }

  /** Whether the filesystem serves the reads and the writes of one call. */
  datatype Disk = Disk(readOk: bool, writeOk: bool)

  function Written<R>(c: Codec<R>, file: Option<seq<byte>>, runs: seq<R>, disk: Disk): Option<seq<byte>> {
    if disk.writeOk && Serialise(c, runs).Some? then Serialise(c, runs) else file
  }

  function Bytes(file: Option<seq<byte>>): seq<byte> {
    if file.None? then [] else file.value
  }

  function Appended<R>(c: Codec<R>, file: Option<seq<byte>>, rec: R, limit: int, disk: Disk): Option<seq<byte>> {
    if !disk.readOk then file
    else Written(c, file, KeepLast(Load(c, Bytes(file)) + [rec], limit), disk)
  }

  function Deleted<R>(c: Codec<R>, file: Option<seq<byte>>, id: string, disk: Disk): Option<seq<byte>> {
    if !disk.readOk || !HasId(c, Load(c, Bytes(file)), id) then file
    else Written(c, file, Without(c, Load(c, Bytes(file)), id), disk)
  }

  /** The history file; None is a file that does not exist yet. */
  class HistoryFile<R> {
    const codec: Codec<R>
    var file: Option<seq<byte>>

    constructor (codec: Codec<R>)
      ensures this.codec == codec && file == None
    {
      this.codec := codec;
      file := None;
    }

    method LoadRuns(disk: Disk) returns (runs: Option<seq<R>>)
      ensures runs == if disk.readOk then Some(Load(codec, Bytes(file))) else None
    {
      hide Load;
      LoadEmpty(codec);
      if !disk.readOk {
        return None;
      }
      if file.None? {
        return Some([]);
      }
      var data := file.value;
      var out: seq<R> := [];
      var start := 0;
      assert data[start..] == data;
      while start < |data|
        invariant 0 <= start <= |data|
        invariant Load(codec, data) == out + Load(codec, data[start..])
      {
        ghost var rest := data[start..];
        var end := start;
        while end < |data| && data[end] != NEWLINE
          invariant start <= end <= |data|
          invariant forall k :: start <= k < end ==> data[k] != NEWLINE
        {
          end := end + 1;
        }
        var line := data[start..end];
        LoadStep(codec, rest, end - start);
        assert rest[..end - start] == line;
        ghost var before := out;
        start := if end < |data| then end + 1 else end;
        assert if end < |data| then data[start..] == rest[|line| + 1..] else data[start..] == [];
        assert RecordOf(codec, line).None? ==> Load(codec, rest) == [] + Load(codec, data[start..]);
        if |line| == 0 {
          continue;
        }
        var r := codec.decode(line);
        if r.None? {
          continue;
        }
        out := out + [r.value];
        assert before + ([r.value] + Load(codec, data[start..])) == out + Load(codec, data[start..]);
      }
      assert data[start..] == [] && out + [] == out;
      return Some(out);
    }

    method CountRuns(disk: Disk) returns (count: Option<nat>)
      ensures count == if disk.readOk then Some(|Lines(Bytes(file))|) else None
    {
      if !disk.readOk {
        return None;
      }
      if file.None? {
        return Some(0);
      }
      var data := file.value;
      if |data| == 0 {
        return Some(0);
      }
      var n := 0;
      for i := 0 to |data|
        invariant n == Newlines(data[..i])
      {
        assert data[..i + 1][..i] == data[..i];
        if data[i] == NEWLINE {
          n := n + 1;
        }
      }
      assert data[..|data|] == data;
      LinesByCount(data);
      if data[|data| - 1] != NEWLINE {
        n := n + 1;
      }
      return Some(n);
    }

    method WriteRuns(runs: seq<R>, disk: Disk) returns (ok: bool)
      modifies this`file
      ensures ok <==> disk.writeOk && Serialise(codec, runs).Some?
      ensures file == Written(codec, old(file), runs, disk)
    {
      var buf: seq<byte> := [];
      var i := 0;
      assert runs[0..] == runs;
      while i < |runs|
        invariant 0 <= i <= |runs|
        invariant file == old(file)
        invariant Serialise(codec, runs) == Prefixed(buf, Serialise(codec, runs[i..]))
      {
        assert runs[i..][0] == runs[i] && runs[i..][1..] == runs[i + 1..];
        var line := codec.encode(runs[i]);
        if line.None? {
          return false;
        }
        PrefixedTwice(buf, line.value + [NEWLINE], Serialise(codec, runs[i + 1..]));
        assert buf + (line.value + [NEWLINE]) == buf + line.value + [NEWLINE];
        buf := buf + line.value;
        buf := buf + [NEWLINE];
        i := i + 1;
      }
      assert Serialise(codec, runs) == Some(buf);
      if !disk.writeOk {
        return false;
      }
      file := Some(buf);
      return true;
    }

    method AppendRun(rec: R, limit: int, disk: Disk) returns (ok: bool)
      modifies this`file
      ensures file == Appended(codec, old(file), rec, limit, disk)
      ensures ok <==> disk.readOk && disk.writeOk
                      && Serialise(codec, KeepLast(Load(codec, Bytes(old(file))) + [rec], limit)).Some?
    {
      var runs := LoadRuns(disk);
      if runs.None? {
        return false;
      }
      var all := runs.value + [rec];
      if limit > 0 && |all| > limit {
        all := all[|all| - limit..];
      }
      ok := WriteRuns(all, disk);
    }

    method FindRun(id: string, disk: Disk) returns (r: Option<Option<R>>)
      ensures r.Some? <==> disk.readOk
      ensures r.Some? ==> var runs := Load(codec, Bytes(file));
        match r.value
        case None => !HasId(codec, runs, id)
        case Some(rec) => exists i :: 0 <= i < |runs| && rec == runs[i] && codec.id(rec) == id
                                       && !HasId(codec, runs[..i], id)
    {
      var runs := LoadRuns(disk);
      if runs.None? {
        return None;
      }
      for i := 0 to |runs.value|
        invariant !HasId(codec, runs.value[..i], id)
      {
        if codec.id(runs.value[i]) == id {
          return Some(Some(runs.value[i]));
        }
      }
      assert runs.value[..|runs.value|] == runs.value;
      return Some(None);
    }

    method LatestRun(disk: Disk) returns (r: Option<Option<R>>)
      ensures r.Some? <==> disk.readOk
      ensures r.Some? ==> var runs := Load(codec, Bytes(file));
        r.value == if runs == [] then None else Some(runs[|runs| - 1])
    {
      var runs := LoadRuns(disk);
      if runs.None? {
        return None;
      }
      if |runs.value| == 0 {
        return Some(None);
      }
      return Some(Some(runs.value[|runs.value| - 1]));
    }

    method DeleteRun(id: string, disk: Disk) returns (found: Option<bool>)
      modifies this`file
      ensures file == Deleted(codec, old(file), id, disk)
      ensures var runs := Load(codec, Bytes(old(file)));
        found == if !disk.readOk then None
                 else if !HasId(codec, runs, id) then Some(false)
                 else if disk.writeOk && Serialise(codec, Without(codec, runs, id)).Some? then Some(true)
                 else None
    {
      hide Load, HasId, Serialise;
      HasIdEmpty(codec, id);
      var runs := LoadRuns(disk);
      if runs.None? {
        return None;
      }
      var kept: seq<R> := [];
      var hit := false;
      var i := 0;
      assert runs.value[0..] == runs.value;
      while i < |runs.value|
        invariant 0 <= i <= |runs.value|
        invariant file == old(file)
        invariant Without(codec, runs.value, id) == kept + Without(codec, runs.value[i..], id)
        invariant hit <==> HasId(codec, runs.value[..i], id)
      {
        var rec := runs.value[i];
        assert runs.value[i..][0] == rec && runs.value[i..][1..] == runs.value[i + 1..];
        HasIdStep(codec, runs.value, i, id);
        if codec.id(rec) == id {
          hit := true;
        } else {
          kept := kept + [rec];
        }
        i := i + 1;
      }
      assert runs.value[..i] == runs.value && runs.value[i..] == [] && kept + [] == kept;
      if !hit {
        return Some(false);
      }
      var ok := WriteRuns(kept, disk);
      if !ok {
        return None;
      }
      return Some(true);
    }
  }

  lemma HasIdEmpty<R>(c: Codec<R>, id: string)
    ensures !HasId(c, [], id)
  {
  }

  lemma HasIdStep<R>(c: Codec<R>, runs: seq<R>, i: nat, id: string)
    requires i < |runs|
    ensures HasId(c, runs[..i + 1], id) <==> HasId(c, runs[..i], id) || c.id(runs[i]) == id
  {
    var a, b := runs[..i + 1], runs[..i];
    if HasId(c, b, id) {
      var k :| 0 <= k < |b| && c.id(b[k]) == id;
      assert a[k] == b[k];
    }
    if c.id(runs[i]) == id {
      assert a[i] == runs[i];
    }
    if HasId(c, a, id) && c.id(runs[i]) != id {
      var k :| 0 <= k < |a| && c.id(a[k]) == id;
      assert k < i && b[k] == a[k];
    }
  }

  function Newlines(data: seq<byte>): nat {
    if data == [] then 0 else Newlines(data[..|data| - 1]) + if data[|data| - 1] == NEWLINE then 1 else 0
  }

  lemma {:induction false} NewlinesConcat(a: seq<byte>, b: seq<byte>)
    ensures Newlines(a + b) == Newlines(a) + Newlines(b)
  {
    if b == [] {
      assert a + b == a;
    } else {
      NewlinesConcat(a, b[..|b| - 1]);
      assert (a + b)[..|a + b| - 1] == a + b[..|b| - 1];
    }
  }

  lemma {:induction false} NoNewlines(data: seq<byte>)
    requires forall k :: 0 <= k < |data| ==> data[k] != NEWLINE
    ensures Newlines(data) == 0
  {
    if data != [] {
      NoNewlines(data[..|data| - 1]);
    }
  }

  /** The number of lines is the number of newlines, plus one for an unterminated last line. */
  lemma {:induction false} LinesByCount(data: seq<byte>)
    requires data != []
    ensures |Lines(data)| == Newlines(data) + if data[|data| - 1] != NEWLINE then 1 else 0
    decreases |data|
  {
    var n := LineEnd(data);
    NoNewlines(data[..n]);
    if n == |data| {
      assert data[..n] == data;
    } else {
      var rest := data[n + 1..];
      assert data == data[..n] + [NEWLINE] + rest;
      NewlinesConcat(data[..n] + [NEWLINE], rest);
      NewlinesConcat(data[..n], [NEWLINE]);
      assert Newlines([NEWLINE]) == 1;
      if rest != [] {
        LinesByCount(rest);
        assert rest[|rest| - 1] == data[|data| - 1];
      }
    }
  }

  // ----- refinement over whole histories ------------------------------------

  /** What the server does to the file, one whole operation at a time under its lock. */
  datatype Op<R> = Append(rec: R, limit: int, disk: Disk) | Delete(id: string, disk: Disk)

  function OnFile<R>(c: Codec<R>, file: Option<seq<byte>>, op: Op<R>): Option<seq<byte>> {
    match op
    case Append(rec, limit, disk) => Appended(c, file, rec, limit, disk)
    case Delete(id, disk) => Deleted(c, file, id, disk)
  }

  /** The list the operation asks for; None when it changes nothing. */
  function Wanted<R>(c: Codec<R>, runs: seq<R>, op: Op<R>): Option<seq<R>> {
    match op
    case Append(rec, limit, disk) => Some(KeepLast(runs + [rec], limit))
    case Delete(id, disk) => if HasId(c, runs, id) then Some(Without(c, runs, id)) else None
  }

  /** The same operation on a list, where it is done or left undone as a whole. */
  function OnList<R>(c: Codec<R>, runs: seq<R>, op: Op<R>): seq<R> {
    var wanted := Wanted(c, runs, op);
    if wanted.Some? && op.disk.readOk && op.disk.writeOk && Serialise(c, wanted.value).Some?
    then Rounded(c, wanted.value) else runs
  }

  lemma OperationRefines<R(!new)>(c: Codec<R>, file: Option<seq<byte>>, op: Op<R>)
    requires ValidCodec(c)
    ensures Load(c, Bytes(OnFile(c, file, op))) == OnList(c, Load(c, Bytes(file)), op)
  {
    hide ValidCodec, Load, KeepLast, Without, HasId;
    var wanted := Wanted(c, Load(c, Bytes(file)), op);
    if wanted.Some? && Serialise(c, wanted.value).Some? {
      RoundTrip(c, wanted.value);
    }
  }

  function FileAfter<R>(c: Codec<R>, file: Option<seq<byte>>, ops: seq<Op<R>>): Option<seq<byte>>
    decreases |ops|
  {
    if ops == [] then file else FileAfter(c, OnFile(c, file, ops[0]), ops[1..])
  }

  function ListAfter<R>(c: Codec<R>, runs: seq<R>, ops: seq<Op<R>>): seq<R>
    decreases |ops|
  {
    if ops == [] then runs else ListAfter(c, OnList(c, runs, ops[0]), ops[1..])
  }

  /** Any sequence of operations, failed ones included, leaves a file that reads as the list the same
      operations make: the file refines the list. */
  lemma {:induction false} HistoryRefinesList<R(!new)>(c: Codec<R>, file: Option<seq<byte>>, ops: seq<Op<R>>)
    requires ValidCodec(c)
    ensures Load(c, Bytes(FileAfter(c, file, ops))) == ListAfter(c, Load(c, Bytes(file)), ops)
    decreases |ops|
  {
    if ops != [] {
      OperationRefines(c, file, ops[0]);
      HistoryRefinesList(c, OnFile(c, file, ops[0]), ops[1..]);
    }
  }

  function Ids<R>(c: Codec<R>, runs: seq<R>): seq<string> {
    seq(|runs|, i requires 0 <= i < |runs| => c.id(runs[i]))
  }

  /** Rounding keeps ids and happens once: a loaded file that was written is a fixed point of rounding. */
  lemma RoundedOnce<R(!new)>(c: Codec<R>, runs: seq<R>)
    requires ValidCodec(c)
    ensures Ids(c, Rounded(c, runs)) == Ids(c, runs)
    ensures Rounded(c, Rounded(c, runs)) == Rounded(c, runs)
  {
  }

  /** Whether an operation asks for a change and the change can be written. */
  predicate Done<R>(c: Codec<R>, runs: seq<R>, op: Op<R>) {
    && op.disk == Disk(true, true)
    && Wanted(c, runs, op).Some? && Serialise(c, Wanted(c, runs, op).value).Some?
  }

  function WithoutString(ids: seq<string>, id: string): seq<string> {
    if ids == [] then []
    else if ids[0] == id then WithoutString(ids[1..], id)
    else [ids[0]] + WithoutString(ids[1..], id)
  }

  lemma {:induction false} IdsWithout<R>(c: Codec<R>, runs: seq<R>, id: string)
    ensures Ids(c, Without(c, runs, id)) == WithoutString(Ids(c, runs), id)
  {
    if runs == [] {
      assert Ids(c, runs) == [];
    } else {
      IdsWithout(c, runs[1..], id);
      assert Ids(c, runs) == [c.id(runs[0])] + Ids(c, runs[1..]);
      if c.id(runs[0]) != id {
        assert Ids(c, [runs[0]] + Without(c, runs[1..], id)) == [c.id(runs[0])] + Ids(c, Without(c, runs[1..], id));
      }
    }
  }

  function OnIds<R>(c: Codec<R>, ids: seq<string>, op: Op<R>): seq<string> {
    match op
    case Append(rec, limit, _) => KeepLast(ids + [c.id(rec)], limit)
    case Delete(id, _) => WithoutString(ids, id)
  }

  /** By id the list is exact, rounding aside: a successful append keeps the last `limit` ids with the new
      one at the end, a successful delete takes out the id, and anything else changes nothing. */
  lemma IdsOfOperation<R(!new)>(c: Codec<R>, runs: seq<R>, op: Op<R>)
    requires ValidCodec(c)
    ensures !Done(c, runs, op) ==> OnList(c, runs, op) == runs
    ensures Done(c, runs, op) ==> Ids(c, OnList(c, runs, op)) == OnIds(c, Ids(c, runs), op)
  {
    if Done(c, runs, op) {
      RoundedOnce(c, Wanted(c, runs, op).value);
      match op
      case Append(rec, limit, _) =>
        assert Ids(c, runs + [rec]) == Ids(c, runs) + [c.id(rec)];
      case Delete(id, _) => IdsWithout(c, runs, id);
    }
  }

  function IdsAfter<R>(c: Codec<R>, ids: seq<string>, ops: seq<Op<R>>): seq<string>
    decreases |ops|
  {
    if ops == [] then ids else IdsAfter(c, OnIds(c, ids, ops[0]), ops[1..])
  }

  /** The operations that take effect when the whole mix is done in turn. */
  function Effective<R>(c: Codec<R>, runs: seq<R>, ops: seq<Op<R>>): seq<Op<R>>
    decreases |ops|
  {
    if ops == [] then []
    else (if Done(c, runs, ops[0]) then [ops[0]] else []) + Effective(c, OnList(c, runs, ops[0]), ops[1..])
  }

  /** Over any mix of appends, with limits or without, and deletes, failed and empty ones included: by id the
      history is what the operations that took effect make of it, one after the other. */
  lemma {:induction false} IdsOfHistory<R(!new)>(c: Codec<R>, runs: seq<R>, ops: seq<Op<R>>)
    requires ValidCodec(c)
    ensures Ids(c, ListAfter(c, runs, ops)) == IdsAfter(c, Ids(c, runs), Effective(c, runs, ops))
    decreases |ops|
  {
    hide ValidCodec, OnList, Ids, OnIds, Done;
    if ops != [] {
      IdsOfOperation(c, runs, ops[0]);
      var next := OnList(c, runs, ops[0]);
      IdsOfHistory(c, next, ops[1..]);
      var rest := Effective(c, next, ops[1..]);
      if Done(c, runs, ops[0]) {
        assert ([ops[0]] + rest)[1..] == rest;
      } else {
        assert [] + rest == rest;
      }
    }
  }

  /** A file on which the count of lines is the number of records. */
  predicate CountExact<R>(c: Codec<R>, file: Option<seq<byte>>) {
    |Lines(Bytes(file))| == |Load(c, Bytes(file))|
  }

  lemma CountExactKept<R(!new)>(c: Codec<R>, file: Option<seq<byte>>, op: Op<R>)
    requires ValidCodec(c) && CountExact(c, file)
    ensures CountExact(c, OnFile(c, file, op))
  {
    hide ValidCodec, Load, Lines, KeepLast, Without, HasId;
    var wanted := Wanted(c, Load(c, Bytes(file)), op);
    if wanted.Some? && Serialise(c, wanted.value).Some? {
      RoundTrip(c, wanted.value);
    }
  }

  lemma {:induction false} CountStaysExact<R(!new)>(c: Codec<R>, file: Option<seq<byte>>, ops: seq<Op<R>>)
    requires ValidCodec(c) && CountExact(c, file)
    ensures CountExact(c, FileAfter(c, file, ops))
    decreases |ops|
  {
    hide ValidCodec, CountExact, OnFile;
    if ops != [] {
      CountExactKept(c, file, ops[0]);
      CountStaysExact(c, OnFile(c, file, ops[0]), ops[1..]);
    }
  }

  /** Counting lines is exact on every file the operations can make, starting from no file. */
  lemma CountsOwnFiles<R(!new)>(c: Codec<R>, ops: seq<Op<R>>)
    requires ValidCodec(c)
    ensures |Lines(Bytes(FileAfter(c, None, ops)))| == |ListAfter(c, [], ops)|
  {
    hide ValidCodec;
    LoadEmpty(c);
    CountStaysExact(c, None, ops);
    HistoryRefinesList(c, None, ops);
  }

  /** A record that can be written, appended without a limit on a disk that works. */
  predicate PlainAppend<R>(c: Codec<R>, op: Op<R>) {
    op.Append? && op.limit <= 0 && op.disk == Disk(true, true) && c.encode(op.rec).Some?
  }

  predicate Writable<R>(c: Codec<R>, runs: seq<R>) {
    forall i :: 0 <= i < |runs| ==> c.encode(runs[i]).Some?
  }

  function NewIds<R>(c: Codec<R>, ops: seq<Op<R>>): seq<string>
    requires forall i :: 0 <= i < |ops| ==> PlainAppend(c, ops[i])
  {
    if ops == [] then []
    else
      assert PlainAppend(c, ops[0]);
      [c.id(ops[0].rec)] + NewIds(c, ops[1..])
  }

  lemma PlainAppendStep<R(!new)>(c: Codec<R>, runs: seq<R>, op: Op<R>)
    requires ValidCodec(c) && PlainAppend(c, op) && Writable(c, runs)
    ensures Ids(c, OnList(c, runs, op)) == Ids(c, runs) + [c.id(op.rec)]
    ensures Writable(c, OnList(c, runs, op))
  {
    Serialises(c, runs + [op.rec]);
    IdsOfOperation(c, runs, op);
  }

  /** No lost update: appends that succeed without a limit keep every earlier record and add each new one,
      in order. */
  lemma {:induction false} NoLostUpdate<R(!new)>(c: Codec<R>, runs: seq<R>, ops: seq<Op<R>>)
    requires ValidCodec(c) && Writable(c, runs)
    requires forall i :: 0 <= i < |ops| ==> PlainAppend(c, ops[i])
    ensures Ids(c, ListAfter(c, runs, ops)) == Ids(c, runs) + NewIds(c, ops)
    decreases |ops|
  {
    hide ValidCodec, Writable, OnList, Ids;
    if ops != [] {
      PlainAppendStep(c, runs, ops[0]);
      NoLostUpdate(c, OnList(c, runs, ops[0]), ops[1..]);
    }
  }

  lemma {:induction false} Serialises<R>(c: Codec<R>, runs: seq<R>)
    requires Writable(c, runs)
    ensures Serialise(c, runs).Some?
  {
    if runs != [] {
      Serialises(c, runs[1..]);
    }
  }
}
