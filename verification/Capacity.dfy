/** The manifest size bound: what a checkpoint that was let through can still be refused for. The
    JSON layout is modelled to the byte where a checkpoint touches it. */
module Capacity {
  import opened Model
  import opened Git
  import opened World
  import opened Machine
  import opened Sweeps
  import A = CheckpointAtomicity
  import O = CheckpointOutcome

  const JSON_CAP: nat := 1024 * 1024
  const MESSAGE_CAP: nat := 16 * 1024

  // ---- the pretty-printed document ----

  /** A JSON value; a text is given by its encoded size, quotes included. */
  datatype Json = Text(size: nat) | Number(n: nat) | Object(fields: seq<Field>) | Array(items: seq<Json>)

  datatype Field = Field(key: string, value: Json)

  /** Digits of a number in decimal. */
  function Width(n: nat): (w: nat)
    ensures w >= 1
  {
    if n < 10 then 1 else 1 + Width(n / 10)
  }

  /** Bytes of a value standing `depth` levels deep: two spaces of indentation a level, one field or
      item a line, a comma after all but the last. */
  function Bytes(json: Json, depth: nat): nat
    decreases json
  {
    match json
    case Text(size) => size
    case Number(n) => Width(n)
    case Object(fields) => if fields == [] then 2 else FieldBytes(fields, depth + 1) + 2 * depth + 2
    case Array(items) => if items == [] then 2 else ItemBytes(items, depth + 1) + 2 * depth + 2
  }

  /** Each field with its newline, indentation, quoted key, colon and comma; the comma the last one
      does not have stands for the newline before the closing brace. */
  function FieldBytes(fields: seq<Field>, depth: nat): nat
    decreases fields
  {
    if fields == [] then 0
    else 2 + 2 * depth + |fields[0].key| + 4 + Bytes(fields[0].value, depth) + FieldBytes(fields[1..], depth)
  }

  function ItemBytes(items: seq<Json>, depth: nat): nat
    decreases items
  {
    if items == [] then 0 else 2 + 2 * depth + Bytes(items[0], depth) + ItemBytes(items[1..], depth)
  }

  lemma {:induction false} FieldsConcat(a: seq<Field>, b: seq<Field>, depth: nat)
    ensures FieldBytes(a + b, depth) == FieldBytes(a, depth) + FieldBytes(b, depth)
    decreases |a|
  {
    if a == [] {
      assert a + b == b;
    } else {
      assert (a + b)[0] == a[0] && (a + b)[1..] == a[1..] + b;
      FieldsConcat(a[1..], b, depth);
    }
  }

  lemma {:induction false} ItemsConcat(a: seq<Json>, b: seq<Json>, depth: nat)
    ensures ItemBytes(a + b, depth) == ItemBytes(a, depth) + ItemBytes(b, depth)
    decreases |a|
  {
    if a == [] {
      assert a + b == b;
    } else {
      assert (a + b)[0] == a[0] && (a + b)[1..] == a[1..] + b;
      ItemsConcat(a[1..], b, depth);
    }
  }

  // ---- the manifest ----

  /** Bytes one character takes inside a JSON string. */
  function Escaped(c: char): nat {
    if c == '\"' || c == '\\' || c as int in {8, 9, 10, 12, 13} then 2
    else if c < ' ' then 6
    else if c as int < 0x80 then 1
    else if c as int < 0x800 then 2
    else if c as int < 0x1_0000 then 3
    else 4
  }

  function EscapedBytes(text: string): nat {
    if text == "" then 0 else Escaped(text[0]) + EscapedBytes(text[1..])
  }

  function Quoted(text: string): Json { Text(EscapedBytes(text) + 2) }

  /** What a checkpoint leaves alone: the fields before `state`, those from there to
      `updated_at_unix`, those after `checkpoint`, and the length of an object id. */
  datatype Rest = Rest(front: seq<Field>, middle: seq<Field>, back: seq<Field>, hex: nat)

  function CommitId(rest: Rest): Json { Text(rest.hex + 2) }

  function StateName(c: Capsule): string {
    match c.state
    case Creating => "creating"
    case Checkpointing => "checkpointing"
    case Active => "active"
    case Closed => "closed"
    case Integrating => "integrating"
    case Integrated => "integrated"
    case Dropping => "dropping"
    case Orphaned => "orphaned"
    case Dropped => "dropped"
  }

  /** The fields a journal and the checkpoint made of it share. */
  function Signed(message: string, author: Author): seq<Field> {
    [Field("message", Quoted(message)), Field("author_name", Quoted(author.name)),
     Field("author_email", Quoted(author.email))]
  }

  function CheckpointJson(rest: Rest, p: Checkpoint<Commit>): Json {
    Object([Field("commit", CommitId(rest))] + Signed(p.message, p.author)
           + [Field("created_at_unix", Number(p.createdAt))])
  }

  function JournalJson(rest: Rest, j: Journal): Json {
    Object([Field("head_before", CommitId(rest)), Field("head_after", CommitId(rest)),
            Field("patch_sha256", Text(64 + 2))]
           + Signed(j.message, j.author) + [Field("started_at_unix", Number(j.startedAt))])
  }

  function CheckpointItems(rest: Rest, checkpoints: seq<Checkpoint<Commit>>): seq<Json> {
    if checkpoints == [] then []
    else [CheckpointJson(rest, checkpoints[0])] + CheckpointItems(rest, checkpoints[1..])
  }

  function CheckpointsField(rest: Rest, c: Capsule): seq<Field> {
    if c.checkpoints == [] then []
    else [Field("checkpoints", Array(CheckpointItems(rest, c.checkpoints)))]
  }

  function JournalField(rest: Rest, c: Capsule): seq<Field> {
    match c.journal
    case Some(j) => [Field("checkpoint", JournalJson(rest, j))]
    case None => []
  }

  function Document(rest: Rest, c: Capsule, updatedAt: nat): Json {
    Object(rest.front + [Field("state", Text(|StateName(c)| + 2))] + rest.middle
           + [Field("updated_at_unix", Number(updatedAt))]
           + CheckpointsField(rest, c) + JournalField(rest, c) + rest.back)
  }

  /** Bytes of the manifest file, its final newline included. */
  function Size(rest: Rest, c: Capsule, updatedAt: nat): nat {
    Bytes(Document(rest, c, updatedAt), 0) + 1
  }

  /** `ensure_manifest_capacity`, and the same bound at the write. */
  predicate Fits(rest: Rest, c: Capsule, updatedAt: nat) {
    Size(rest, c, updatedAt) <= JSON_CAP
  }

  function Journaled(c: Capsule, j: Journal): Capsule {
    c.(state := Checkpointing, journal := Some(j))
  }

  function Completed(c: Capsule, j: Journal): Capsule {
    c.(state := Active, journal := None, checkpoints := c.checkpoints + [CheckpointOf(j)])
  }

  /** `project_checkpoint`: both manifests, still carrying the last update time. */
  predicate Projects(rest: Rest, c: Capsule, j: Journal, updatedAt: nat) {
    && |c.checkpoints| < CHECKPOINT_COUNT_CAP
    && Fits(rest, Journaled(c, j), updatedAt)
    && Fits(rest, Completed(c, j), updatedAt)
  }

  // ---- what the three forms differ by ----

  /** Everything that is the same in all three. */
  function Common(rest: Rest): nat {
    FieldBytes(rest.front, 1) + FieldBytes(rest.middle, 1) + FieldBytes(rest.back, 1)
  }

  lemma OneField(field: Field, depth: nat)
    ensures FieldBytes([field], depth) == 6 + 2 * depth + |field.key| + Bytes(field.value, depth)
  {
    assert FieldBytes([field][1..], depth) == 0;
  }

  lemma {:induction false} ItemsGrow(rest: Rest, checkpoints: seq<Checkpoint<Commit>>, p: Checkpoint<Commit>)
    ensures CheckpointItems(rest, checkpoints + [p]) == CheckpointItems(rest, checkpoints) + [CheckpointJson(rest, p)]
    decreases |checkpoints|
  {
    hide CheckpointJson;
    if checkpoints == [] {
    } else {
      assert (checkpoints + [p])[1..] == checkpoints[1..] + [p];
      ItemsGrow(rest, checkpoints[1..], p);
    }
  }

  /** Bytes of what journal and checkpoint both say. */
  function Told(j: Journal): nat {
    SignedBytes(j.message, j.author) + Width(j.startedAt)
  }

  function SignedBytes(message: string, author: Author): nat {
    EscapedBytes(message) + EscapedBytes(author.name) + EscapedBytes(author.email)
  }

  lemma ThreeFields(f: Field, g: Field, h: Field, depth: nat)
    ensures FieldBytes([f, g, h], depth) == FieldBytes([f], depth) + FieldBytes([g], depth) + FieldBytes([h], depth)
  {
    FieldsConcat([f], [g, h], depth);
    FieldsConcat([g], [h], depth);
    assert [f] + [g, h] == [f, g, h] && [g] + [h] == [g, h];
  }

  lemma SignedIs(message: string, author: Author, depth: nat)
    ensures FieldBytes(Signed(message, author), depth) == 54 + 6 * depth + SignedBytes(message, author)
  {
    var fields := Signed(message, author);
    ThreeFields(fields[0], fields[1], fields[2], depth);
    OneField(fields[0], depth);
    OneField(fields[1], depth);
    OneField(fields[2], depth);
  }

  lemma CheckpointBytes(rest: Rest, p: Checkpoint<Commit>)
    ensures Bytes(CheckpointJson(rest, p), 2)
            == 125 + rest.hex + SignedBytes(p.message, p.author) + Width(p.createdAt)
  {
    hide Signed;
    hide SignedBytes;
    var first, last := Field("commit", CommitId(rest)), Field("created_at_unix", Number(p.createdAt));
    FieldsConcat([first] + Signed(p.message, p.author), [last], 3);
    FieldsConcat([first], Signed(p.message, p.author), 3);
    SignedIs(p.message, p.author, 3);
    OneField(first, 3);
    OneField(last, 3);
  }

  lemma JournalBytes(rest: Rest, j: Journal)
    ensures Bytes(JournalJson(rest, j), 1) == 228 + 2 * rest.hex + Told(j)
  {
    hide Signed;
    hide SignedBytes;
    var f, g, h := Field("head_before", CommitId(rest)), Field("head_after", CommitId(rest)),
        Field("patch_sha256", Text(64 + 2));
    var last := Field("started_at_unix", Number(j.startedAt));
    FieldsConcat([f, g, h] + Signed(j.message, j.author), [last], 2);
    FieldsConcat([f, g, h], Signed(j.message, j.author), 2);
    SignedIs(j.message, j.author, 2);
    ThreeFields(f, g, h, 2);
    OneField(f, 2);
    OneField(g, 2);
    OneField(h, 2);
    OneField(last, 2);
  }

  /** Bytes of the list of checkpoints, its key included. */
  function ListBytes(rest: Rest, checkpoints: seq<Checkpoint<Commit>>): nat {
    if checkpoints == [] then 0 else 23 + ItemBytes(CheckpointItems(rest, checkpoints), 2)
  }

  lemma ListIs(rest: Rest, c: Capsule)
    ensures FieldBytes(CheckpointsField(rest, c), 1) == ListBytes(rest, c.checkpoints)
  {
    if c.checkpoints != [] {
      OneField(CheckpointsField(rest, c)[0], 1);
    }
  }

  lemma ListGrows(rest: Rest, checkpoints: seq<Checkpoint<Commit>>, p: Checkpoint<Commit>)
    ensures ListBytes(rest, checkpoints + [p])
            == ListBytes(rest, checkpoints) + 131 + rest.hex + SignedBytes(p.message, p.author) + Width(p.createdAt)
               + (if checkpoints == [] then 23 else 0)
  {
    hide CheckpointJson;
    hide SignedBytes;
    var item := CheckpointJson(rest, p);
    ItemsGrow(rest, checkpoints, p);
    ItemsConcat(CheckpointItems(rest, checkpoints), [item], 2);
    CheckpointBytes(rest, p);
    assert ItemBytes([item][1..], 2) == 0;
  }

  function JournalFieldBytes(rest: Rest, journal: Option<Journal>): nat {
    match journal
    case Some(j) => 246 + 2 * rest.hex + Told(j)
    case None => 0
  }

  lemma JournalFieldIs(rest: Rest, c: Capsule)
    ensures FieldBytes(JournalField(rest, c), 1) == JournalFieldBytes(rest, c.journal)
  {
    hide JournalJson;
    hide Told;
    if c.journal.Some? {
      OneField(JournalField(rest, c)[0], 1);
      JournalBytes(rest, c.journal.value);
    }
  }

  lemma SizeIs(rest: Rest, c: Capsule, updatedAt: nat)
    ensures Size(rest, c, updatedAt)
            == Common(rest) + 41 + |StateName(c)| + Width(updatedAt)
               + ListBytes(rest, c.checkpoints) + JournalFieldBytes(rest, c.journal)
  {
    hide CheckpointsField;
    hide JournalField;
    hide ListBytes;
    hide JournalFieldBytes;
    hide StateName;
    var state := [Field("state", Text(|StateName(c)| + 2))];
    var updated := [Field("updated_at_unix", Number(updatedAt))];
    var a := rest.front + state;
    var b := a + rest.middle;
    var d := b + updated;
    var e := d + CheckpointsField(rest, c);
    var f := e + JournalField(rest, c);
    FieldsConcat(rest.front, state, 1);
    FieldsConcat(a, rest.middle, 1);
    FieldsConcat(b, updated, 1);
    FieldsConcat(d, CheckpointsField(rest, c), 1);
    FieldsConcat(e, JournalField(rest, c), 1);
    FieldsConcat(f, rest.back, 1);
    OneField(state[0], 1);
    OneField(updated[0], 1);
    ListIs(rest, c);
    JournalFieldIs(rest, c);
    assert Document(rest, c, updatedAt) == Object(f + rest.back);
  }

  /** The journaled manifest is the largest of the three, by far more than a time can grow. */
  lemma FormsCompare(rest: Rest, c: Capsule, j: Journal, updatedAt: nat)
    requires c.state.Active? && c.journal.None?
    ensures Size(rest, Journaled(c, j), updatedAt)
            == Size(rest, Completed(c, j), updatedAt) + 122 + rest.hex - (if c.checkpoints == [] then 23 else 0)
    ensures Size(rest, Journaled(c, j), updatedAt) == Size(rest, c, updatedAt) + 253 + 2 * rest.hex + Told(j)
  {
    hide Size;
    hide Told;
    hide ListBytes;
    SizeIs(rest, c, updatedAt);
    SizeIs(rest, Journaled(c, j), updatedAt);
    SizeIs(rest, Completed(c, j), updatedAt);
    ListTells(rest, c, j);
  }

  lemma ListTells(rest: Rest, c: Capsule, j: Journal)
    ensures ListBytes(rest, Completed(c, j).checkpoints)
            == ListBytes(rest, c.checkpoints) + 131 + rest.hex + Told(j) + (if c.checkpoints == [] then 23 else 0)
  {
    hide ListBytes;
    ListGrows(rest, c.checkpoints, CheckpointOf(j));
  }

  lemma TimeMoves(rest: Rest, c: Capsule, from: nat, to: nat)
    ensures Size(rest, c, to) - Width(to) == Size(rest, c, from) - Width(from)
  {
    hide Size;
    hide ListBytes;
    hide JournalFieldBytes;
    SizeIs(rest, c, from);
    SizeIs(rest, c, to);
  }

  // ---- the checkpoint that was let through ----

  lemma {:induction false} WidthAtMost(n: nat, digits: nat)
    requires 1 <= digits && n < Power(digits)
    ensures Width(n) <= digits
    decreases digits
  {
    if n < 10 {
    } else {
      WidthAtMost(n / 10, digits - 1);
    }
  }

  function Power(digits: nat): (p: nat)
    ensures p >= 1
  {
    if digits == 0 then 1 else 10 * Power(digits - 1)
  }

  /** The times of the source are 64 bits wide. */
  const TIME_BOUND: nat := 0x1_0000_0000_0000_0000

  lemma TwentyDigits(n: nat)
    requires n < TIME_BOUND
    ensures Width(n) <= 20
  {
    assert Power(5) == 100_000;
    assert Power(10) == 10_000_000_000;
    assert Power(15) == 1_000_000_000_000_000;
    assert Power(20) == 100_000_000_000_000_000_000;
    WidthAtMost(n, 20);
  }

  /** Past the projection only the journal write can still be refused for size, and exactly when
      the new time is longer than the old one by more than the room that was left. Neither the
      completion, by the call or by a recovery, nor the write of a recovery that undoes the call
      can, at any time the clock may show then. */
  lemma OnlyTheJournalCanBeRefused(rest: Rest, c: Capsule, j: Journal, updatedAt: nat, later: nat)
    requires c.state.Active? && c.journal.None? && (rest.hex == 40 || rest.hex == 64)
    requires Projects(rest, c, j, updatedAt) && later < TIME_BOUND
    ensures Fits(rest, Journaled(c, j), j.startedAt)
            <==> Width(j.startedAt) - Width(updatedAt) <= JSON_CAP - Size(rest, Journaled(c, j), updatedAt)
    ensures Fits(rest, Completed(c, j), later)
    ensures Fits(rest, c, later)
  {
    hide Size;
    hide Told;
    FormsCompare(rest, c, j, updatedAt);
    TimeMoves(rest, Journaled(c, j), updatedAt, j.startedAt);
    TimeMoves(rest, Completed(c, j), updatedAt, later);
    TimeMoves(rest, c, updatedAt, later);
    TwentyDigits(later);
  }

  /** From ten digits to eleven even the journal write always fits. */
  lemma NoRefusalForCenturies(rest: Rest, c: Capsule, j: Journal, updatedAt: nat)
    requires Projects(rest, c, j, updatedAt)
    requires 1_000_000_000 <= updatedAt && j.startedAt < 10_000_000_000
    ensures Fits(rest, Journaled(c, j), j.startedAt)
  {
    hide Size;
    TimeMoves(rest, Journaled(c, j), updatedAt, j.startedAt);
    assert Power(5) == 100_000;
    assert Power(10) == 10_000_000_000;
    WidthAtMost(j.startedAt, 10);
    assert Power(9) == 1_000_000_000;
    WidthAtLeast(updatedAt, 10);
  }

  lemma {:induction false} WidthAtLeast(n: nat, digits: nat)
    requires 1 <= digits && n >= Power(digits - 1)
    ensures Width(n) >= digits
    decreases digits
  {
    if digits == 1 {
    } else {
      WidthAtLeast(n / 10, digits - 1);
    }
  }

  /** The projected manifests are the ones the checkpoint machine writes: the journal first, then,
      unless the commit is already listed, the completion. */
  lemma ProjectionsAreWritten(s: Local, c: Capsule, j: Journal)
    requires c.state.Active? && c.journal.None?
    requires forall k | 0 <= k < |c.checkpoints| :: c.checkpoints[k].commit != j.headAfter
    ensures CheckpointingStep(s, JournalCheckpoint(Journaled(c, j))).s.cell.store.manifest == Some(Journaled(c, j))
    ensures StepRecordCheckpoint(s, Journaled(c, j)).s.cell.store.manifest == Some(Completed(c, j))
  {
    hide StepBeginCheckpoint;
    hide StepFinishCheckpoint;
    var done := Journaled(c, j).(checkpoints := c.checkpoints + [CheckpointOf(j)], journal := None, state := Active);
    assert done == Completed(c, j);
  }

  /** A refused journal write ends the call with its ref in place and the capsule open. The next
      recovery takes the ref away, and everything is as before the call. */
  lemma RefusalIsSettled(a: A.Attempt, s: Local, n: nat)
    requires A.Valid(a) && s.cell.store.manifest == Some(a.open) && s.cell.git == a.git && n >= 5
    ensures var refused := Step(s, BeginCheckpoint(a.message, a.author));
            && refused.pc.JournalCheckpoint?
            && refused.s.cell.git.checkpointRef.Some?
            && var settled := Drive(refused.s, BeginRecover, n).s;
               settled.cell.store.manifest == Some(a.open) && settled.cell.git == a.git
  {
    hide Step;
    hide A.Valid;
    hide StepBeginCheckpoint;
    A.HasBranch(a);
    A.BeginStays(a, s);
    Unfolds(s, BeginCheckpoint(a.message, a.author));
    O.RecoverySettles(a, StepBeginCheckpoint(s, a.message, a.author).s, A.Pinned, n);
  }

  // ---- a manifest whose journal write is refused ----

  function Pad(n: nat): string {
    if n == 0 then "" else "x" + Pad(n - 1)
  }

  lemma {:induction false} PadBytes(n: nat)
    ensures |Pad(n)| == n && EscapedBytes(Pad(n)) == n
  {
    if n == 0 {
    } else {
      assert Pad(n)[1..] == Pad(n - 1);
      PadBytes(n - 1);
    }
  }

  const AUTHOR: Author := Author("a", "a@b")

  /** A capsule's first `n` checkpoints, each with the longest message there may be. */
  function Filled(base: Commit, n: nat): seq<Checkpoint<Commit>> {
    if n == 0 then []
    else Filled(base, n - 1) + [Checkpoint(Tip(base, n), Pad(MESSAGE_CAP), AUTHOR, 0)]
  }

  function Tip(base: Commit, n: nat): Commit {
    if n == 0 then base else Commit([Tip(base, n - 1)], base.tree, Pad(MESSAGE_CAP), AUTHOR)
  }

  lemma AuthorBytes()
    ensures EscapedBytes(AUTHOR.name) == 1 && EscapedBytes(AUTHOR.email) == 3
  {
    assert "a@b"[1..] == "@b" && "@b"[1..] == "b";
    assert EscapedBytes("@b") == 2;
  }

  lemma {:induction false} FilledBytes(rest: Rest, base: Commit, n: nat)
    requires rest.hex == 40
    ensures |Filled(base, n)| == n
    ensures ListBytes(rest, Filled(base, n)) == if n == 0 then 0 else 23 + 16_560 * n
    decreases n
  {
    hide ListBytes;
    hide EscapedBytes;
    if n == 0 {
      assert ListBytes(rest, []) == 0 by { NothingListed(rest); }
    } else {
      FilledBytes(rest, base, n - 1);
      PadBytes(MESSAGE_CAP);
      AuthorBytes();
      ListGrows(rest, Filled(base, n - 1), Checkpoint(Tip(base, n), Pad(MESSAGE_CAP), AUTHOR, 0));
    }
  }

  lemma NothingListed(rest: Rest)
    ensures ListBytes(rest, []) == 0
  {}

  /** A capsule with 63 checkpoints of the longest message, whatever else its manifest says in at
      most 4000 bytes: whenever the clock has gained a digit since its last update, some message
      within the bound passes the projection and has its journal write refused. */
  lemma PaddedIsRefused(rest: Rest, c: Capsule, j: Journal, updatedAt: nat)
    requires c.state.Active? && c.journal.None? && c.checkpoints == Filled(c.identity.base, 63)
    requires rest.hex == 40 && Common(rest) <= 4000 && j.author == AUTHOR
    requires j.startedAt < TIME_BOUND && Width(updatedAt) < Width(j.startedAt)
    ensures exists k: nat ::
              && 1 <= |Pad(k)| <= MESSAGE_CAP
              && Projects(rest, c, j.(message := Pad(k)), updatedAt)
              && !Fits(rest, Journaled(c, j.(message := Pad(k))), j.startedAt)
  {
    hide Size;
    hide Common;
    hide ListBytes;
    hide EscapedBytes;
    hide StateName;
    TwentyDigits(j.startedAt);
    var k := 4889 - Common(rest) - Width(updatedAt) - Width(j.startedAt);
    var padded := j.(message := Pad(k));
    PadBytes(k);
    AuthorBytes();
    FilledBytes(rest, c.identity.base, 63);
    JournaledSize(rest, c, padded, updatedAt);
    TimeMoves(rest, Journaled(c, padded), updatedAt, j.startedAt);
    FormsCompare(rest, c, padded, updatedAt);
    assert Size(rest, Journaled(c, padded), updatedAt) == JSON_CAP;
  }

  lemma JournaledSize(rest: Rest, c: Capsule, j: Journal, updatedAt: nat)
    ensures Size(rest, Journaled(c, j), updatedAt)
            == Common(rest) + 54 + Width(updatedAt) + ListBytes(rest, c.checkpoints) + 246 + 2 * rest.hex + Told(j)
  {
    hide Size;
    hide ListBytes;
    hide Told;
    SizeIs(rest, Journaled(c, j), updatedAt);
  }
}
