/** `git worktree list --porcelain -z`, printed and parsed. */
module Worktrees {
  import opened Model
  import opened Framing
  import opened GitPaths

  datatype Record = Record(path: Bytes, head: Option<Bytes>, branch: Option<Bytes>, bare: bool)

  const WORKTREE: Bytes := "worktree "
  const HEAD: Bytes := "HEAD "
  const BRANCH: Bytes := "branch refs/heads/"
  const BARE: Bytes := "bare"

  /** One field, as the parser's loop takes it: records finished so far, and the one in progress. */
  datatype Parsing = Parsing(done: seq<Record>, current: Option<Record>)

  function Take(p: Parsing, field: Bytes): Parsing {
    if WORKTREE <= field then
      Parsing(if p.current.Some? then p.done + [p.current.value] else p.done,
              Some(Record(field[|WORKTREE|..], None, None, false)))
    else if p.current.None? then p
    else if HEAD <= field then p.(current := Some(p.current.value.(head := Some(field[|HEAD|..]))))
    else if BRANCH <= field then p.(current := Some(p.current.value.(branch := Some(field[|BRANCH|..]))))
    else if field == BARE then p.(current := Some(p.current.value.(bare := true)))
    else p
  }

  function TakeAll(p: Parsing, fields: seq<Bytes>): Parsing
    decreases |fields|
  {
    if fields == [] then p else TakeAll(Take(p, fields[0]), fields[1..])
  }

  function Finished(p: Parsing): seq<Record> {
    if p.current.Some? then p.done + [p.current.value] else p.done
  }

  predicate AllUtf8(fields: seq<Bytes>) {
    forall i | 0 <= i < |fields| :: ValidUtf8(fields[i])
  }

  /** `parse_nul_strings`. */
  method ParseStrings(bytes: Bytes) returns (values: Result<seq<Bytes>>)
    ensures values == if AllUtf8(SplitNul(bytes, [])) then Ok(SplitNul(bytes, [])) else Err
  {
    var items := SplitNul(bytes, []);
    var out: seq<Bytes> := [];
    for i := 0 to |items|
      invariant out == items[..i] && AllUtf8(items[..i])
    {
      if !ValidUtf8(items[i]) {
        return Err;
      }
      out := out + [items[i]];
    }
    assert items[..|items|] == items;
    return Ok(out);
  }

  /** `parse_worktrees`. */
  method ParseWorktrees(bytes: Bytes) returns (records: Result<seq<Record>>)
    ensures records == if AllUtf8(SplitNul(bytes, []))
        then Ok(Finished(TakeAll(Parsing([], None), SplitNul(bytes, []))))
                       else Err
  {
    var parsed := ParseStrings(bytes);
    if parsed.Err? {
      return Err;
    }
    var fields := parsed.value;
    var out: seq<Record> := [];
    var current: Option<Record> := None;
    for i := 0 to |fields|
      invariant TakeAll(Parsing([], None), fields) == TakeAll(Parsing(out, current), fields[i..])
    {
      var field := fields[i];
      assert fields[i..][0] == field && fields[i..][1..] == fields[i + 1..];
      if WORKTREE <= field {
        if current.Some? {
          out := out + [current.value];
        }
        current := Some(Record(field[|WORKTREE|..], None, None, false));
      } else if current.Some? {
        if HEAD <= field {
          current := Some(current.value.(head := Some(field[|HEAD|..])));
        } else if BRANCH <= field {
          current := Some(current.value.(branch := Some(field[|BRANCH|..])));
        } else if field == BARE {
          current := Some(current.value.(bare := true));
        }
      }
    }
    if current.Some? {
      out := out + [current.value];
    }
    return Ok(out);
  }

  // ---- printing ----

  /** A record as listed, with lines of other kinds (detached, locked, prunable). */
  datatype Listed = Listed(record: Record, others: seq<Bytes>)

  predicate Other(field: Bytes) {
    !(WORKTREE <= field) && !(HEAD <= field) && !(BRANCH <= field) && field != BARE
  }

  /** What Git writes before a value. */
  function Line(prefix: Bytes, value: Bytes): Bytes { prefix + value }

  function Lines(l: Listed): seq<Bytes> {
    [Line("worktree ", l.record.path)]
    + ((if l.record.head.Some? then [Line("HEAD ", l.record.head.value)] else [])
    + ((if l.record.branch.Some? then [Line("branch refs/heads/", l.record.branch.value)] else [])
    + ((if l.record.bare then [Line("bare", [])] else [])
    + l.others)))
  }

  /** Every line ends with a NUL, and an empty line ends the record. */
  function Layout(list: seq<Listed>): seq<Bytes> {
    if list == [] then [] else Lines(list[0]) + ([[]] + Layout(list[1..]))
  }

  function Records(list: seq<Listed>): seq<Record> {
    seq(|list|, i requires 0 <= i < |list| => list[i].record)
  }

  predicate Text(s: Bytes) { ValidUtf8(s) && '\0' !in s }

  predicate Printable(l: Listed) {
    && Text(l.record.path)
    && (l.record.head.Some? ==> Text(l.record.head.value))
    && (l.record.branch.Some? ==> Text(l.record.branch.value))
    && forall i | 0 <= i < |l.others| :: Text(l.others[i]) && Other(l.others[i]) && l.others[i] != []
  }

  // ---- the round trip ----

  lemma {:induction false} TakeConcat(p: Parsing, a: seq<Bytes>, b: seq<Bytes>)
    ensures TakeAll(p, a + b) == TakeAll(TakeAll(p, a), b)
    decreases |a|
  {
    hide Take;
    if a == [] {
      assert a + b == b;
    } else {
      assert (a + b)[0] == a[0] && (a + b)[1..] == a[1..] + b;
      TakeConcat(Take(p, a[0]), a[1..], b);
    }
  }

  lemma {:induction false} OthersIgnored(p: Parsing, others: seq<Bytes>)
    requires forall i | 0 <= i < |others| :: Other(others[i])
    ensures TakeAll(p, others) == p
    decreases |others|
  {
    if others == [] {
    } else {
      assert Other(others[0]);
      OthersIgnored(p, others[1..]);
    }
  }

  lemma TakeOne(p: Parsing, field: Bytes)
    ensures TakeAll(p, [field]) == Take(p, field)
    ensures TakeAll(p, []) == p
  {
    assert [field][1..] == [];
  }

  /** The four prefixes do not overlap. */
  lemma TakesField(p: Parsing, value: Bytes)
    requires p.current.Some?
    ensures Take(p, HEAD + value) == p.(current := Some(p.current.value.(head := Some(value))))
    ensures Take(p, BRANCH + value) == p.(current := Some(p.current.value.(branch := Some(value))))
    ensures Take(p, BARE) == p.(current := Some(p.current.value.(bare := true)))
  {
    assert (HEAD + value)[0] == 'H' && (BRANCH + value)[0] == 'b' && BARE[0] == 'b' && WORKTREE[0] == 'w';
    assert (BRANCH + value)[1] == 'r' && BARE[1] == 'a';
    assert (HEAD + value)[|HEAD|..] == value && (BRANCH + value)[|BRANCH|..] == value;
    assert HEAD <= HEAD + value && BRANCH <= BRANCH + value;
  }

  /** The lines of one record open it and fill it in. */
  lemma RecordParses(p: Parsing, l: Listed)
    requires Printable(l)
    ensures TakeAll(p, Lines(l)) == Parsing(Finished(p), Some(l.record))
  {
    hide Take;
    hide TakeAll;
    hide Text;
    hide Other;
    var r := l.record;
    var heads := if r.head.Some? then [HEAD + r.head.value] else [];
    var branches := if r.branch.Some? then [BRANCH + r.branch.value] else [];
    var bares := if r.bare then [BARE] else [];
    assert BARE + [] == BARE;
    var p1 := Parsing(Finished(p), Some(Record(r.path, None, None, false)));
    var p2 := p1.(current := Some(p1.current.value.(head := r.head)));
    var p3 := p2.(current := Some(p2.current.value.(branch := r.branch)));
    OpensRecord(p, r.path);
    TakeConcat(p, [WORKTREE + r.path], heads + (branches + (bares + l.others)));
    TakeConcat(p1, heads, branches + (bares + l.others));
    TakeConcat(p2, branches, bares + l.others);
    TakeConcat(p3, bares, l.others);
    TakesOptional(p1, r.head, r.branch, r.bare);
    TakesOptional(p2, r.head, r.branch, r.bare);
    TakesOptional(p3, r.head, r.branch, r.bare);
    OthersIgnored(Parsing(Finished(p), Some(r)), l.others);
  }

  lemma OpensRecord(p: Parsing, path: Bytes)
    ensures TakeAll(p, [WORKTREE + path]) == Parsing(Finished(p), Some(Record(path, None, None, false)))
  {
    TakeOne(p, WORKTREE + path);
    assert (WORKTREE + path)[|WORKTREE|..] == path && WORKTREE <= WORKTREE + path;
  }

  lemma TakesOptional(p: Parsing, head: Option<Bytes>, branch: Option<Bytes>, bare: bool)
    requires p.current.Some?
    ensures head.Some? ==> TakeAll(p, [HEAD + head.value]) == p.(current := Some(p.current.value.(head := head)))
    ensures branch.Some? ==>
          TakeAll(p, [BRANCH + branch.value])
          == p.(current := Some(p.current.value.(branch := branch)))
    ensures bare ==> TakeAll(p, [BARE]) == p.(current := Some(p.current.value.(bare := true)))
    ensures TakeAll(p, []) == p
  {
    hide Take;
    if head.Some? {
      TakeOne(p, HEAD + head.value);
      TakesField(p, head.value);
    }
    if branch.Some? {
      TakeOne(p, BRANCH + branch.value);
      TakesField(p, branch.value);
    }
    TakeOne(p, BARE);
    TakesField(p, []);
  }

  lemma {:induction false} NotEmptyConcat(a: seq<Bytes>, b: seq<Bytes>)
    ensures NotEmpty(a + b) == NotEmpty(a) + NotEmpty(b)
    decreases |a|
  {
    if a == [] {
      assert a + b == b;
    } else {
      assert (a + b)[0] == a[0] && (a + b)[1..] == a[1..] + b;
      NotEmptyConcat(a[1..], b);
    }
  }

  lemma LinesNotEmpty(l: Listed)
    requires Printable(l)
    ensures NotEmpty(Lines(l)) == Lines(l)
  {
    hide ValidUtf8;
    var lines := Lines(l);
    assert |WORKTREE| > 0 && |HEAD| > 0 && |BRANCH| > 0 && |BARE| > 0;
    forall i | 0 <= i < |lines|
      ensures lines[i] != []
    {
      if lines[i] in l.others {
        var j :| 0 <= j < |l.others| && l.others[j] == lines[i];
      }
    }
    AllNotEmpty(lines);
  }

  lemma BlankLine(rest: seq<Bytes>)
    ensures NotEmpty([[]] + rest) == NotEmpty(rest)
  {
    assert ([[]] + rest)[1..] == rest;
    assert [] + NotEmpty(rest) == NotEmpty(rest);
  }

  lemma {:induction false} LayoutParses(p: Parsing, list: seq<Listed>)
    requires forall i | 0 <= i < |list| :: Printable(list[i])
    ensures Finished(TakeAll(p, NotEmpty(Layout(list)))) == Finished(p) + Records(list)
    decreases |list|
  {
    hide Printable;
    hide Lines;
    hide TakeAll;
    hide NotEmpty;
    if list == [] {
      NothingToParse(p);
      assert Finished(p) + [] == Finished(p) && Records(list) == [];
    } else {
      var rest := Layout(list[1..]);
      NotEmptyConcat(Lines(list[0]), [[]] + rest);
      BlankLine(rest);
      LinesNotEmpty(list[0]);
      TakeConcat(p, Lines(list[0]), NotEmpty(rest));
      RecordParses(p, list[0]);
      var p1 := Parsing(Finished(p), Some(list[0].record));
      LayoutParses(p1, list[1..]);
      RecordsFrom(list);
      assert (Finished(p) + [list[0].record]) + Records(list[1..])
          == Finished(p) + ([list[0].record] + Records(list[1..]));
    }
  }

  lemma RecordsFrom(list: seq<Listed>)
    requires list != []
    ensures Records(list) == [list[0].record] + Records(list[1..])
  {}

  lemma NothingToParse(p: Parsing)
    ensures TakeAll(p, NotEmpty([])) == p
  {}

  predicate Texts(fields: seq<Bytes>) {
    forall i | 0 <= i < |fields| :: Text(fields[i])
  }

  lemma TextsConcat(a: seq<Bytes>, b: seq<Bytes>)
    requires Texts(a) && Texts(b)
    ensures Texts(a + b)
  {
    hide Text;
  }

  lemma TextsSeparate(fields: seq<Bytes>)
    requires Texts(fields)
    ensures Separable(fields) && AllUtf8(fields)
  {
    hide ValidUtf8;
    assert forall i | 0 <= i < |fields| :: Text(fields[i]);
  }

  lemma TextConcat(a: Bytes, b: Bytes)
    requires Text(a) && Text(b)
    ensures Text(a + b)
  {
    hide ValidUtf8;
    Utf8Concat(a, b);
  }

  lemma LinesAreText(l: Listed)
    requires Printable(l)
    ensures Texts(Lines(l))
  {
    hide Text;
    hide Other;
    PrefixesAreText();
    var r := l.record;
    var heads := if r.head.Some? then [HEAD + r.head.value] else [];
    var branches := if r.branch.Some? then [BRANCH + r.branch.value] else [];
    var bares := if r.bare then [BARE] else [];
    assert BARE + [] == BARE;
    TextConcat(WORKTREE, r.path);
    if r.head.Some? {
      TextConcat(HEAD, r.head.value);
    }
    if r.branch.Some? {
      TextConcat(BRANCH, r.branch.value);
    }
    TextsConcat(bares, l.others);
    TextsConcat(branches, bares + l.others);
    TextsConcat(heads, branches + (bares + l.others));
    TextsConcat([WORKTREE + r.path], heads + (branches + (bares + l.others)));
  }

  lemma PrefixesAreText()
    ensures Text(WORKTREE) && Text(HEAD) && Text(BRANCH) && Text(BARE)
  {
    hide Text;
    hide ValidUtf8;
    hide CharLength;
    AsciiText(WORKTREE);
    AsciiText(HEAD);
    AsciiText(BRANCH);
    AsciiText(BARE);
  }

  lemma {:induction false} AsciiText(s: Bytes)
    requires forall i | 0 <= i < |s| :: 0 < s[i] as int < 0x80
    ensures Text(s)
    decreases |s|
  {
    if s == [] {
    } else {
      AsciiText(s[1..]);
      assert CharLength(s) == 1;
      assert forall i | 0 < i < |s| :: s[i] == s[1..][i - 1];
    }
  }

  lemma {:induction false} LayoutIsText(list: seq<Listed>)
    requires forall i | 0 <= i < |list| :: Printable(list[i])
    ensures Texts(Layout(list))
    decreases |list|
  {
    hide Printable;
    hide Lines;
    if list == [] {
    } else {
      LinesAreText(list[0]);
      LayoutIsText(list[1..]);
      TextsConcat([[]], Layout(list[1..]));
      TextsConcat(Lines(list[0]), [[]] + Layout(list[1..]));
    }
  }

  lemma {:induction false} NotEmptyUtf8(items: seq<Bytes>)
    requires AllUtf8(items)
    ensures AllUtf8(NotEmpty(items))
    decreases |items|
  {
    hide ValidUtf8;
    if items == [] {
    } else {
      NotEmptyUtf8(items[1..]);
    }
  }

  /** Parsing a printed list gives its records back: same paths, heads, branches and bare flags, in
      order, whatever other lines stand among them. */
  lemma ListRoundTrip(list: seq<Listed>)
    requires forall i | 0 <= i < |list| :: Printable(list[i])
    ensures var fields := SplitNul(PrintNul(Layout(list)), []);
            && AllUtf8(fields)
            && Finished(TakeAll(Parsing([], None), fields)) == Records(list)
  {
    hide Printable;
    hide ValidUtf8;
    hide Layout;
    hide TakeAll;
    hide SplitNul;
    hide PrintNul;
    hide NotEmpty;
    hide Records;
    LayoutIsText(list);
    TextsSeparate(Layout(list));
    SplitPrints(Layout(list));
    NotEmptyUtf8(Layout(list));
    LayoutParses(Parsing([], None), list);
    assert Finished(Parsing([], None)) + Records(list) == Records(list);
  }
}
