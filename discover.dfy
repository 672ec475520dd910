/** The header parse of the discovery datagram: a `NOTIFY *` block of
    CRLF-separated lines becomes a map from header name (last character,
    normally the colon, dropped) to value. */
module Discovery {
  import opened PyBase
  import opened PyText

  /** The bytes of `b'NOTIFY *'`. */
  const Preamble: seq<byte> := [78, 79, 84, 73, 70, 89, 32, 42]

  /** `line.split(' ', 1)` fed to `dict()`: the text before the first space
      and the rest; a line without a space gives a one-element list, which
      `dict()` rejects with ValueError. */
  function SplitOnce(line: string): (r: Result<(string, string)>)
    ensures r.Raised? <==> !Occurs(line, " ")
    ensures r.Raised? ==> r.error == ValueError
    ensures r.Ok? ==> line == r.value.0 + " " + r.value.1 && !Occurs(r.value.0, " ")
  {
    match FindFrom(line, " ", 0)
    case None => Raised(ValueError)
    case Some(i) =>
      var name := line[..i];
      assert line == name + " " + line[i + 1..] by {
        assert line[i..i + 1] == " ";
      }
      assert !Occurs(name, " ") by {
        forall j: nat | j <= |name| && OccursAt(name, " ", j) ensures false {
          assert name[j..j + 1] == line[j..j + 1];
          assert OccursAt(line, " ", j);
        }
      }
      Ok((name, line[i + 1..]))
  }

  /** Only the first space separates: the value keeps any further spaces. */
  lemma SplitOnceFirstSpace(name: string, value: string)
    requires !Occurs(name, " ")
    ensures SplitOnce(name + " " + value) == Ok((name, value))
  {
    var line := name + " " + value;
    assert OccursAt(line, " ", |name|) by {
      assert line[|name|..|name| + 1] == " ";
    }
    forall j: nat | j < |name| ensures !OccursAt(line, " ", j) {
      assert !OccursAt(name, " ", j);
      assert line[j..j + 1] == name[j..j + 1];
    }
    assert FindFrom(line, " ", 0) == Some(|name|);
    assert line[..|name|] == name;
    assert line[|name| + 1..] == value;
  }

  /** A dict as Python keeps it: entries in insertion order. */
  type Entries = seq<(string, string)>

  /** `d.get(k)`. */
  function Lookup(d: Entries, k: string): Option<string> {
    if d == [] then None
    else if d[0].0 == k then Some(d[0].1)
    else Lookup(d[1..], k)
  }

  lemma {:induction false} LookupFound(d: Entries, k: string)
    ensures Lookup(d, k).Some? <==> exists i :: 0 <= i < |d| && d[i].0 == k
  {
    if d != [] && d[0].0 != k {
      LookupFound(d[1..], k);
      if exists i :: 0 <= i < |d| && d[i].0 == k {
        var i :| 0 <= i < |d| && d[i].0 == k;
        assert d[1..][i - 1].0 == k;
      }
      if exists i :: 0 <= i < |d[1..]| && d[1..][i].0 == k {
        var i :| 0 <= i < |d[1..]| && d[1..][i].0 == k;
        assert d[i + 1].0 == k;
      }
    }
  }

  /** `d[k] = v`: an existing key keeps its position and takes the new
      value, a new key is appended. */
  function Insert(d: Entries, k: string, v: string): (r: Entries)
    ensures Lookup(r, k) == Some(v)
    ensures forall j :: j != k ==> Lookup(r, j) == Lookup(d, j)
  {
    if d == [] then [(k, v)]
    else if d[0].0 == k then [(k, v)] + d[1..]
    else
      var rest := Insert(d[1..], k, v);
      assert ([d[0]] + rest)[1..] == rest;
      [d[0]] + rest
  }

  /** The dict the map value of which `d` is. */
  function ToMap(d: Entries): (m: map<string, string>)
    ensures forall k :: k in m <==> Lookup(d, k).Some?
    ensures forall k :: k in m ==> Some(m[k]) == Lookup(d, k)
  {
    if d == [] then map[]
    else ToMap(d[1..])[d[0].0 := d[0].1]
  }

  /** No name occurs twice: what a dict's entries always satisfy. */
  predicate DistinctNames(d: Entries) {
    forall i, j :: 0 <= i < j < |d| ==> d[i].0 != d[j].0
  }

  /** Assigning a key keeps the names distinct. */
  lemma {:induction false} InsertDistinct(d: Entries, k: string, v: string)
    requires DistinctNames(d)
    ensures DistinctNames(Insert(d, k, v))
  {
    if d != [] && d[0].0 != k {
      var tail := d[1..];
      assert DistinctNames(tail) by {
        forall i, j | 0 <= i < j < |tail| ensures tail[i].0 != tail[j].0 {
          assert tail[i] == d[i + 1] && tail[j] == d[j + 1];
        }
      }
      InsertDistinct(tail, k, v);
      var rest := Insert(tail, k, v);
      forall i | 0 <= i < |rest| ensures rest[i].0 != d[0].0 {
        var n := rest[i].0;
        if n != k {
          LookupFound(rest, n);
          LookupFound(tail, n);
          var j :| 0 <= j < |tail| && tail[j].0 == n;
          assert tail[j] == d[j + 1];
        }
      }
      var r := [d[0]] + rest;
      assert r == Insert(d, k, v);
      forall i, j | 0 <= i < j < |r| ensures r[i].0 != r[j].0 {
        assert r[j] == rest[j - 1];
        if i > 0 {
          assert r[i] == rest[i - 1];
        }
      }
    } else if d != [] {
      var r := Insert(d, k, v);
      forall i, j | 0 <= i < j < |r| ensures r[i].0 != r[j].0 {
        assert r[i].0 == d[i].0 && r[j].0 == d[j].0;
      }
    }
  }

  /** In a dict with distinct names, each entry is what its name looks up. */
  lemma {:induction false} LookupAt(d: Entries, i: nat)
    requires DistinctNames(d) && i < |d|
    ensures Lookup(d, d[i].0) == Some(d[i].1)
  {
    if i > 0 {
      var tail := d[1..];
      assert DistinctNames(tail) by {
        forall a, b | 0 <= a < b < |tail| ensures tail[a].0 != tail[b].0 {
          assert tail[a] == d[a + 1] && tail[b] == d[b + 1];
        }
      }
      assert tail[i - 1] == d[i];
      LookupAt(tail, i - 1);
    }
  }

  /** Appending an entry under another name does not change a lookup. */
  lemma {:induction false} LookupSnoc(pre: Entries, x: (string, string), k: string)
    requires x.0 != k
    ensures Lookup(pre + [x], k) == Lookup(pre, k)
  {
    if pre == [] {
      assert ([x])[1..] == [];
    } else {
      assert (pre + [x])[1..] == pre[1..] + [x];
      LookupSnoc(pre[1..], x, k);
    }
  }

  /** A non-empty line without a space: the one thing `dict()` refuses. */
  predicate Malformed(line: string) {
    line != "" && !Occurs(line, " ")
  }

  /** `dict(line.split(' ', 1) for line in lines if line)`. */
  function BuildDict(lines: seq<string>): Result<Entries> {
    if lines == [] then Ok([])
    else
      var last := lines[|lines| - 1];
      match BuildDict(lines[..|lines| - 1])
      case Raised(e) => Raised(e)
      case Ok(d) =>
        if last == "" then Ok(d)
        else
          match SplitOnce(last)
          case Raised(e) => Raised(e)
          case Ok(kv) => Ok(Insert(d, kv.0, kv.1))
  }

  /** `line` is a non-empty header line named `k`. */
  predicate NamedLine(line: string, k: string) {
    line != "" && SplitOnce(line).Ok? && SplitOnce(line).value.0 == k
  }

  /** Reference reading of a header: the value on the last non-empty line
      whose name is `k`. */
  function LastValueFor(lines: seq<string>, k: string): Option<string> {
    if lines == [] then None
    else
      var last := lines[|lines| - 1];
      if NamedLine(last, k) then Some(SplitOnce(last).value.1)
      else LastValueFor(lines[..|lines| - 1], k)
  }

  /** The dict fails with ValueError exactly when some non-empty line has
      no space; otherwise every name maps to the value on its last line. */
  lemma {:induction false} BuildDictSpec(lines: seq<string>)
    ensures BuildDict(lines).Raised? <==> exists i :: 0 <= i < |lines| && Malformed(lines[i])
    ensures BuildDict(lines).Raised? ==> BuildDict(lines).error == ValueError
    ensures BuildDict(lines).Ok? ==> forall k :: Lookup(BuildDict(lines).value, k) == LastValueFor(lines, k)
  {
    if lines != [] {
      var pre := lines[..|lines| - 1];
      BuildDictSpec(pre);
      if exists i :: 0 <= i < |pre| && Malformed(pre[i]) {
        var i :| 0 <= i < |pre| && Malformed(pre[i]);
        assert Malformed(lines[i]);
      }
      if exists i :: 0 <= i < |lines| && Malformed(lines[i]) {
        var i :| 0 <= i < |lines| && Malformed(lines[i]);
        if i < |pre| {
          assert Malformed(pre[i]);
        }
      }
    }
  }

  /** The header dict never holds a name twice. */
  lemma {:induction false} BuildDictDistinct(lines: seq<string>)
    ensures BuildDict(lines).Ok? ==> DistinctNames(BuildDict(lines).value)
  {
    if lines != [] {
      BuildDictDistinct(lines[..|lines| - 1]);
      var last := lines[|lines| - 1];
      if BuildDict(lines).Ok? && last != "" {
        var d := BuildDict(lines[..|lines| - 1]).value;
        var kv := SplitOnce(last).value;
        InsertDistinct(d, kv.0, kv.1);
      }
    }
  }

  /** `k[:-1]`. */
  function DropLast(k: string): string {
    if k == "" then "" else k[..|k| - 1]
  }

  /** Reference reading of a shortened name: the value of the last entry
      whose name shortens to `j`. */
  function LastShortened(d: Entries, j: string): Option<string> {
    if d == [] then None
    else if DropLast(d[|d| - 1].0) == j then Some(d[|d| - 1].1)
    else LastShortened(d[..|d| - 1], j)
  }

  /** When every name shortening like `k` is `k` itself, the shortened
      entry holds what `k` looks up. */
  lemma {:induction false} LastShortenedNamed(d: Entries, k: string)
    requires DistinctNames(d)
    requires forall e :: 0 <= e < |d| && DropLast(d[e].0) == DropLast(k) ==> d[e].0 == k
    ensures LastShortened(d, DropLast(k)) == Lookup(d, k)
  {
    if d != [] {
      var pre := d[..|d| - 1];
      var last := d[|d| - 1];
      assert d == pre + [last];
      if DropLast(last.0) == DropLast(k) {
        LookupAt(d, |d| - 1);
      } else {
        assert DistinctNames(pre) by {
          forall a, b | 0 <= a < b < |pre| ensures pre[a].0 != pre[b].0 {
            assert pre[a] == d[a] && pre[b] == d[b];
          }
        }
        forall e | 0 <= e < |pre| && DropLast(pre[e].0) == DropLast(k) ensures pre[e].0 == k {
          assert pre[e] == d[e];
        }
        LastShortenedNamed(pre, k);
        LookupSnoc(pre, last, k);
      }
    }
  }

  /** Some entry of `d` has a name that shortens to `j`. */
  predicate ShortensTo(d: Entries, j: string) {
    exists i :: 0 <= i < |d| && DropLast(d[i].0) == j
  }

  /** `{k[:-1]: v for k, v in d.items()}`: entries visited in order, so
      when two names coincide once shortened the later entry wins. */
  function Rekey(d: Entries): (r: Entries)
    ensures forall j :: Lookup(r, j).Some? <==> ShortensTo(d, j)
    ensures forall j :: Lookup(r, j) == LastShortened(d, j)
  {
    if d == [] then []
    else
      var pre := d[..|d| - 1];
      var last := d[|d| - 1];
      ShortenedSnoc(d);
      Insert(Rekey(pre), DropLast(last.0), last.1)
  }

  /** Some entry of `d` shortens to `j` exactly when its last one does or
      some earlier one does. */
  lemma ShortenedSnoc(d: Entries)
    requires d != []
    ensures forall j :: ShortensTo(d, j) <==> DropLast(d[|d| - 1].0) == j || ShortensTo(d[..|d| - 1], j)
  {
    var pre := d[..|d| - 1];
    forall j ensures ShortensTo(d, j) <==> DropLast(d[|d| - 1].0) == j || ShortensTo(pre, j) {
      if ShortensTo(pre, j) {
        var i :| 0 <= i < |pre| && DropLast(pre[i].0) == j;
        assert DropLast(d[i].0) == j;
      }
      if ShortensTo(d, j) {
        var i :| 0 <= i < |d| && DropLast(d[i].0) == j;
        if i < |pre| {
          assert DropLast(pre[i].0) == j;
        }
      }
    }
  }

  /** `text.split('\r\n')`. */
  function Lines(text: string): seq<string> {
    Split(text, "\r\n")
  }

  /** The parse of a decoded datagram. */
  function Headers(text: string): Result<map<string, string>> {
    match BuildDict(Lines(text))
    case Raised(e) => Raised(e)
    case Ok(d) => Ok(ToMap(Rekey(d)))
  }

  /** `r.startswith(b'NOTIFY *')` followed by the parse; `decode` stands
      for `bytes.decode()` (UTF-8), None where it raises. Anything else
      returns None. */
  function Discover(r: seq<byte>, decode: seq<byte> -> Option<string>): (res: Result<Option<map<string, string>>>)
    ensures res == Ok(None) <==> !(Preamble <= r)
    ensures res.Raised? ==> res.error == UnicodeDecodeError || res.error == ValueError
    ensures Preamble <= r && decode(r).None? ==> res == Raised(UnicodeDecodeError)
  {
    if !(Preamble <= r) then Ok(None)
    else
      match decode(r)
      case None => Raised(UnicodeDecodeError)
      case Some(text) =>
        BuildDictSpec(Lines(text));
        match Headers(text)
        case Raised(e) => Raised(e)
        case Ok(m) => Ok(Some(m))
  }

  /** Every line carrying name `k` makes the header readable. */
  lemma {:induction false} LastValueCovers(lines: seq<string>, k: string, i: nat)
    requires i < |lines| && NamedLine(lines[i], k)
    ensures LastValueFor(lines, k).Some?
  {
    if i < |lines| - 1 {
      var pre := lines[..|lines| - 1];
      assert pre[i] == lines[i];
      LastValueCovers(pre, k, i);
    }
  }

  /** A readable header comes from some line carrying its name. */
  lemma {:induction false} LastValueWitness(lines: seq<string>, k: string) returns (i: nat)
    requires LastValueFor(lines, k).Some?
    ensures i < |lines| && NamedLine(lines[i], k)
  {
    if NamedLine(lines[|lines| - 1], k) {
      i := |lines| - 1;
    } else {
      var pre := lines[..|lines| - 1];
      i := LastValueWitness(pre, k);
      assert pre[i] == lines[i];
    }
  }

  /** A header is read from some line exactly when a line carries its name. */
  lemma LastValueFound(lines: seq<string>, k: string)
    ensures LastValueFor(lines, k).Some? <==> exists i :: 0 <= i < |lines| && NamedLine(lines[i], k)
  {
    if LastValueFor(lines, k).Some? {
      var i := LastValueWitness(lines, k);
    }
    if exists i :: 0 <= i < |lines| && NamedLine(lines[i], k) {
      var i :| 0 <= i < |lines| && NamedLine(lines[i], k);
      LastValueCovers(lines, k, i);
    }
  }

  /** `line` is a non-empty header line whose name, shortened, is `j`. */
  predicate ShowsName(line: string, j: string) {
    line != "" && SplitOnce(line).Ok? && DropLast(SplitOnce(line).value.0) == j
  }

  /** A shortened name belongs to some dict entry exactly when it is
      shown by some non-empty line. */
  lemma EntryNames(lines: seq<string>, d: Entries, j: string)
    requires BuildDict(lines) == Ok(d)
    ensures ShortensTo(d, j) <==> exists i :: 0 <= i < |lines| && ShowsName(lines[i], j)
  {
    BuildDictSpec(lines);
    if ShortensTo(d, j) {
      var e :| 0 <= e < |d| && DropLast(d[e].0) == j;
      var k := d[e].0;
      LookupFound(d, k);
      LastValueFound(lines, k);
      var i :| 0 <= i < |lines| && NamedLine(lines[i], k);
      assert ShowsName(lines[i], j);
    }
    if exists i :: 0 <= i < |lines| && ShowsName(lines[i], j) {
      var i :| 0 <= i < |lines| && ShowsName(lines[i], j);
      var k := SplitOnce(lines[i]).value.0;
      assert NamedLine(lines[i], k);
      LastValueFound(lines, k);
      LookupFound(d, k);
      var e :| 0 <= e < |d| && d[e].0 == k;
      assert DropLast(d[e].0) == j;
      assert ShortensTo(d, j);
    }
  }

  /** A successful parse has exactly one entry per shortened name of a
      non-empty line, the preamble line included. */
  lemma HeaderNames(text: string)
    requires Headers(text).Ok?
    ensures forall j :: j in Headers(text).value <==>
      exists i :: 0 <= i < |Lines(text)| && ShowsName(Lines(text)[i], j)
  {
    var lines := Lines(text);
    assert BuildDict(lines).Ok?;
    var d := BuildDict(lines).value;
    assert Headers(text).value == ToMap(Rekey(d));
    forall j ensures j in Headers(text).value <==> exists i :: 0 <= i < |lines| && ShowsName(lines[i], j) {
      EntryNames(lines, d, j);
      assert j in ToMap(Rekey(d)) <==> Lookup(Rekey(d), j).Some?;
    }
  }

  /** The value of a header whose shortened name no other header name
      shares is the value on the last line carrying it. */
  lemma HeaderValue(text: string, k: string)
    requires Headers(text).Ok?
    requires forall i :: 0 <= i < |Lines(text)| && ShowsName(Lines(text)[i], DropLast(k)) ==> NamedLine(Lines(text)[i], k)
    ensures DropLast(k) in Headers(text).value <==> LastValueFor(Lines(text), k).Some?
    ensures DropLast(k) in Headers(text).value ==> Headers(text).value[DropLast(k)] == LastValueFor(Lines(text), k).value
  {
    var lines := Lines(text);
    assert BuildDict(lines).Ok?;
    var d := BuildDict(lines).value;
    assert Headers(text).value == ToMap(Rekey(d));
    BuildDictSpec(lines);
    BuildDictDistinct(lines);
    forall e | 0 <= e < |d| && DropLast(d[e].0) == DropLast(k) ensures d[e].0 == k {
      var n := d[e].0;
      LookupFound(d, n);
      LastValueFound(lines, n);
      var i :| 0 <= i < |lines| && NamedLine(lines[i], n);
      assert ShowsName(lines[i], DropLast(k));
    }
    LastShortenedNamed(d, k);
  }

  /** A line after the last one carrying `k` does not change its value. */
  lemma {:induction false} LastValueAt(lines: seq<string>, k: string, i: nat)
    requires i < |lines| && NamedLine(lines[i], k)
    requires forall j :: i < j < |lines| ==> !NamedLine(lines[j], k)
    ensures LastValueFor(lines, k) == Some(SplitOnce(lines[i]).value.1)
  {
    if i < |lines| - 1 {
      var pre := lines[..|lines| - 1];
      assert pre[i] == lines[i];
      forall j | i < j < |pre| ensures !NamedLine(pre[j], k) {
        assert pre[j] == lines[j];
      }
      LastValueAt(pre, k, i);
    }
  }

  /** The preamble line splits into 'NOTIFY' and '* HTTP/1.1'. */
  lemma PreambleLine()
    ensures NamedLine("NOTIFY * HTTP/1.1", "NOTIFY")
    ensures SplitOnce("NOTIFY * HTTP/1.1").value.1 == "* HTTP/1.1"
    ensures DropLast("NOTIFY") == "NOTIF"
  {
    CharFree("NOTIFY", ' ');
    assert "NOTIFY * HTTP/1.1" == "NOTIFY" + " " + "* HTTP/1.1";
    SplitOnceFirstSpace("NOTIFY", "* HTTP/1.1");
  }

  /** A datagram opening with `NOTIFY * HTTP/1.1` yields the entry 'NOTIF'
      with value '* HTTP/1.1', unless a later line also shortens to 'NOTIF'. */
  lemma PreambleEntry(text: string)
    requires Headers(text).Ok?
    requires |Lines(text)| > 0 && Lines(text)[0] == "NOTIFY * HTTP/1.1"
    requires forall i :: 0 < i < |Lines(text)| ==> !ShowsName(Lines(text)[i], "NOTIF")
    ensures "NOTIF" in Headers(text).value && Headers(text).value["NOTIF"] == "* HTTP/1.1"
  {
    var lines := Lines(text);
    PreambleLine();
    forall j | 0 < j < |lines| ensures !NamedLine(lines[j], "NOTIFY") {
      assert !ShowsName(lines[j], "NOTIF");
    }
    LastValueAt(lines, "NOTIFY", 0);
    forall i | 0 <= i < |lines| && ShowsName(lines[i], "NOTIF") ensures NamedLine(lines[i], "NOTIFY") {
      assert i == 0;
    }
    HeaderValue(text, "NOTIFY");
  }

  /** When a header repeats, the later line's value wins. */
  lemma RepeatedHeaderLastWins(lines: seq<string>, name: string, first: string, second: string)
    requires !Occurs(name, " ")
    requires BuildDict(lines).Ok?
    ensures
      var more := lines + [name + " " + first, name + " " + second];
      BuildDict(more).Ok? && Lookup(BuildDict(more).value, name) == Some(second)
  {
    var more := lines + [name + " " + first, name + " " + second];
    SplitOnceFirstSpace(name, first);
    SplitOnceFirstSpace(name, second);
    assert more[..|more| - 1] == lines + [name + " " + first];
    assert (lines + [name + " " + first])[..|lines|] == lines;
  }
}
