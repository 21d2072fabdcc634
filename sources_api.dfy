/**
 * The source endpoints (apps/api/app/routers/sources.py): tag parsing,
 * the partial update, deletion, and the Obsidian folder import. Files on
 * disk and the embedding index are not modelled; the import receives the
 * folder's notes, already sorted, as an input.
 */
module SourcesApi {
  import opened Wrappers
  import opened Text
  import opened Lists
  import opened Db
  import opened TasksApi

  const SourceNotFound := HttpError(NotFound, "Source not found")

  /** What `json.loads` makes of a text: a list (its items as `str` renders them), another value, or an error. */
  datatype JsonOutcome = JsonList(rendered: seq<string>) | JsonOther | JsonDecodeError

  /**
   * `_parse_tags`: nothing for a missing or blank text; a JSON array when
   * the trimmed text starts with `[` (nothing if it is not one); else the
   * trimmed, non-empty comma-separated pieces.
   */
  function ParseTags(raw: Option<string>, decode: string -> JsonOutcome): (r: seq<string>)
    ensures raw.None? || IsBlank(raw.value) ==> r == []
    ensures raw.Some? && !IsBlank(raw.value) && Trim(raw.value)[0] == '[' ==>
      r == (if decode(Trim(raw.value)).JsonList? then decode(Trim(raw.value)).rendered else [])
    ensures raw.Some? && !IsBlank(raw.value) && Trim(raw.value)[0] != '[' ==>
      r == CommaTags(Trim(raw.value)) && forall k :: 0 <= k < |r| ==> Unpadded(r[k]) && ',' !in r[k]
  {
    if raw.None? || raw.value == "" then []
    else
      var stripped := Trim(raw.value);
      if stripped == "" then []
      else if stripped[0] == '[' then
        match decode(stripped)
        case JsonList(items) => items
        case JsonOther => []
        case JsonDecodeError => []
      else CommaTags(stripped)
  }

  /** Tags that are trimmed, not empty, free of commas and not starting with `[` survive a comma-joined round trip. */
  lemma ParseTagsOfJoin(tags: seq<string>, decode: string -> JsonOutcome)
    requires |tags| >= 1
    requires forall i :: 0 <= i < |tags| ==> Unpadded(tags[i]) && ',' !in tags[i]
    requires tags[0] != [] && tags[0][0] != '['
    ensures ParseTags(Some(Join(tags, ",")), decode) == tags
  {
    CommaTagsOfJoin(tags);
    JoinEnds(tags, ",");
  }

  /**
   * The body of `update_source` after `exclude_unset`: `None` is a field
   * left out of the request. A title may be sent as `null`.
   */
  datatype SourceUpdate = SourceUpdate(title: Option<Option<string>>, tags: Option<seq<string>>, kind: Option<string>)

  /** One `(key, value)` pair of the update data. */
  datatype FieldValue = TitleValue(title: Option<string>) | TagsValue(tags: seq<string>) | KindValue(kind: string)

  /**
   * The update data in field order. A falsy `tags` value is replaced by
   * `[]`; for a list, only `[]` is falsy.
   */
  function UpdateData(p: SourceUpdate): (r: seq<FieldValue>)
    ensures |r| <= 3
  {
    (if p.title.Some? then [TitleValue(p.title.value)] else [])
    + (if p.tags.Some? then [TagsValue(if p.tags.value == [] then [] else p.tags.value)] else [])
    + (if p.kind.Some? then [KindValue(p.kind.value)] else [])
  }

  /** `setattr(source, key, value)`. */
  function SetField(s: SourceRow, f: FieldValue): SourceRow {
    match f
    case TitleValue(t) => s.(title := t)
    case TagsValue(t) => s.(tags := t)
    case KindValue(k) => s.(kind := k)
  }

  /** The row after the update: a supplied field takes its value, every other field keeps its own. */
  function UpdatedSource(s: SourceRow, p: SourceUpdate): (r: SourceRow)
    ensures r.id == s.id && r.project_id == s.project_id && r.uri == s.uri
    ensures r.content_ptr == s.content_ptr && r.created_at == s.created_at
    ensures r.title == (if p.title.Some? then p.title.value else s.title)
    ensures r.tags == (if p.tags.Some? then p.tags.value else s.tags)
    ensures r.kind == p.kind.GetOr(s.kind)
  {
    s.(title := if p.title.Some? then p.title.value else s.title,
       tags := if p.tags.Some? then p.tags.value else s.tags,
       kind := p.kind.GetOr(s.kind))
  }

  /** The pairs applied in order, each overwriting its field. */
  function SetFields(s: SourceRow, data: seq<FieldValue>): SourceRow {
    if data == [] then s else SetField(SetFields(s, data[..|data| - 1]), data[|data| - 1])
  }

  /** Applying the update data in order gives the updated row. */
  lemma {:induction false} SetFieldsUpdates(s: SourceRow, p: SourceUpdate)
    ensures SetFields(s, UpdateData(p)) == UpdatedSource(s, p)
  {
    var t := if p.title.Some? then [TitleValue(p.title.value)] else [];
    var g := if p.tags.Some? then [TagsValue(if p.tags.value == [] then [] else p.tags.value)] else [];
    var k := if p.kind.Some? then [KindValue(p.kind.value)] else [];
    var s1 := if p.title.Some? then SetField(s, t[0]) else s;
    assert SetFields(s, t) == s1 by {
      if p.title.Some? { assert t[..0] == []; }
    }
    var s2 := if p.tags.Some? then SetField(s1, g[0]) else s1;
    assert SetFields(s, t + g) == s2 by {
      if p.tags.Some? { assert (t + g)[..|t + g| - 1] == t; } else { assert t + g == t; }
    }
    var s3 := if p.kind.Some? then SetField(s2, k[0]) else s2;
    assert UpdateData(p) == t + g + k;
    assert SetFields(s, t + g + k) == s3 by {
      if p.kind.Some? { assert (t + g + k)[..|t + g + k| - 1] == t + g; } else { assert t + g + k == t + g; }
    }
  }

  /** The `setattr` loop over the update data computes `UpdatedSource`. */
  method ApplyUpdate(s: SourceRow, p: SourceUpdate) returns (r: SourceRow)
    ensures r == UpdatedSource(s, p)
  {
    var data := UpdateData(p);
    r := s;
    var i := 0;
    while i < |data|
      invariant 0 <= i <= |data|
      invariant r == SetFields(s, data[..i])
    {
      assert data[..i + 1][..i] == data[..i];
      r := SetField(r, data[i]);
      i := i + 1;
    }
    assert data[..|data|] == data;
    SetFieldsUpdates(s, p);
  }

  /** `update_source`: 404 for an unknown id, else the supplied fields are overwritten. */
  method UpdateSource(db: Database, sourceId: string, p: SourceUpdate) returns (r: Result<SourceRow, HttpError>)
    modifies db
    ensures db.citations == old(db.citations)
    ensures r.Failure? <==> sourceId !in old(db.sources)
    ensures r.Failure? ==> r.error == SourceNotFound && db.sources == old(db.sources)
    ensures r.Success? ==> r.value == UpdatedSource(old(db.sources)[sourceId], p)
    ensures r.Success? ==> db.sources == old(db.sources)[sourceId := r.value]
    ensures db.projects == old(db.projects) && db.decisions == old(db.decisions)
    ensures db.decisionCitations == old(db.decisionCitations) && db.tasks == old(db.tasks)
  {
    if sourceId !in db.sources {
      return Failure(SourceNotFound);
    }
    var updated := ApplyUpdate(db.sources[sourceId], p);
    db.sources := db.sources[sourceId := updated];
    r := Success(updated);
  }

  /** An update with no field set changes nothing. */
  lemma EmptyUpdateIsIdentity(s: SourceRow)
    ensures UpdatedSource(s, SourceUpdate(None, None, None)) == s
  {
  }

  /** Sending the same update twice stores what sending it once stores. */
  lemma UpdateIdempotent(s: SourceRow, p: SourceUpdate)
    ensures UpdatedSource(UpdatedSource(s, p), p) == UpdatedSource(s, p)
  {
  }

  /** Some insight-run citation names the source. */
  predicate CitedByRun(citations: seq<CitationRow>, sourceId: string) {
    exists c :: c in citations && c.source_id == sourceId
  }

  /**
   * What the commit of `delete_source` raises when a run still cites the
   * source: the ORM would null the citations' `source_id`, which is `NOT NULL`,
   * so the request ends in a server error and the row stays.
   */
  const SourceStillCited := HttpError(InternalServerError, "Internal Server Error")

  /**
   * `delete_source`: 404 for an unknown id. A source that an insight-run
   * citation names cannot be deleted. Otherwise the row is removed, and
   * decision citation rows that name the source are left in place.
   */
  method DeleteSource(db: Database, sourceId: string) returns (r: Result<(), HttpError>)
    modifies db
    ensures db.citations == old(db.citations)
    ensures r == Failure(SourceNotFound) <==> sourceId !in old(db.sources)
    ensures r == Failure(SourceStillCited) <==> sourceId in old(db.sources) && CitedByRun(db.citations, sourceId)
    ensures r.Success? <==> sourceId in old(db.sources) && !CitedByRun(db.citations, sourceId)
    ensures r.Failure? ==> db.sources == old(db.sources)
    ensures r.Success? ==> db.sources == old(db.sources) - {sourceId}
    ensures db.projects == old(db.projects) && db.decisions == old(db.decisions)
    ensures db.decisionCitations == old(db.decisionCitations) && db.tasks == old(db.tasks)
  {
    if sourceId !in db.sources {
      return Failure(SourceNotFound);
    }
    if CitedByRun(db.citations, sourceId) {
      return Failure(SourceStillCited);
    }
    db.sources := db.sources - {sourceId};
    r := Success(());
  }

  /** After a successful delete no insight-run citation names a missing source that it named before. */
  lemma DeleteLeavesRunCitationsResolved(sources: map<string, SourceRow>, citations: seq<CitationRow>, sourceId: string)
    requires forall c :: c in citations ==> c.source_id in sources
    requires !CitedByRun(citations, sourceId)
    ensures forall c :: c in citations ==> c.source_id in sources - {sourceId}
  {
  }

  /** A Markdown note of the import folder: its URI under `obsidian/` and its file stem. */
  datatype Note = Note(uri: string, stem: string)

  /** `payload.limit or 100`: a missing or zero limit means 100. */
  function ImportLimit(limit: Option<int>): (n: int)
    ensures limit.None? || limit.value == 0 ==> n == 100
    ensures limit.Some? && limit.value != 0 ==> n == limit.value
  {
    if limit.None? || limit.value == 0 then 100 else limit.value
  }

  /** Python's `xs[:n]`: a negative `n` drops that many elements from the end. */
  function SliceTo<T>(xs: seq<T>, n: int): (r: seq<T>)
    ensures 0 <= n ==> |r| == if n < |xs| then n else |xs|
    ensures n < 0 ==> |r| == if |xs| + n < 0 then 0 else |xs| + n
    ensures r == xs[..|r|]
  {
    if 0 <= n then (if n < |xs| then xs[..n] else xs)
    else if |xs| + n < 0 then [] else xs[..|xs| + n]
  }

  /** The URIs of the project's sources. */
  function ProjectUris(sources: map<string, SourceRow>, projectId: string): set<string> {
    set k | k in sources && sources[k].project_id == projectId :: sources[k].uri
  }

  /** The notes whose URI is not among `existing`, in order. */
  function NewNotes(notes: seq<Note>, existing: set<string>): (r: seq<Note>)
    ensures |r| <= |notes|
    ensures forall n :: n in r <==> n in notes && n.uri !in existing
  {
    if notes == [] then []
    else
      var last := notes[|notes| - 1];
      assert forall n :: n in notes <==> n in notes[..|notes| - 1] || n == last;
      NewNotes(notes[..|notes| - 1], existing) + (if last.uri in existing then [] else [last])
  }

  /** The source row made for a note. */
  function NoteSource(projectId: string, n: Note, id: string, now: int): SourceRow {
    SourceRow(id, projectId, "obsidian", n.uri, Some(n.stem), [], "data/uploads/" + id + ".txt", now)
  }

  /** The rows made for the notes, the `i`-th with the `i`-th fresh id. */
  lemma NewNotesSnoc(notes: seq<Note>, j: nat, existing: set<string>)
    requires j < |notes|
    ensures NewNotes(notes[..j + 1], existing)
         == NewNotes(notes[..j], existing) + if notes[j].uri in existing then [] else [notes[j]]
  {
    assert notes[..j + 1][..j] == notes[..j];
  }

  function NoteSources(projectId: string, notes: seq<Note>, ids: seq<string>, now: int): (r: seq<SourceRow>)
    requires |ids| >= |notes|
    ensures |r| == |notes|
    ensures forall i :: 0 <= i < |notes| ==> r[i] == NoteSource(projectId, notes[i], ids[i], now)
  {
    seq(|notes|, i requires 0 <= i < |notes| => NoteSource(projectId, notes[i], ids[i], now))
  }

  lemma NoteSourcesSnoc(projectId: string, notes: seq<Note>, n: Note, ids: seq<string>, now: int)
    requires |ids| > |notes|
    ensures NoteSources(projectId, notes + [n], ids, now)
         == NoteSources(projectId, notes, ids, now) + [NoteSource(projectId, n, ids[|notes|], now)]
  {
    var a := NoteSources(projectId, notes + [n], ids, now);
    var b := NoteSources(projectId, notes, ids, now) + [NoteSource(projectId, n, ids[|notes|], now)];
    forall i | 0 <= i < |a| ensures a[i] == b[i] {
      if i < |notes| {
        assert (notes + [n])[i] == notes[i];
      }
    }
  }

  /** The notes an import takes up: at most the limit, in sorted order, skipping known URIs. */
  function ImportedNotes(notes: seq<Note>, limit: Option<int>, existing: set<string>): seq<Note> {
    NewNotes(SliceTo(notes, ImportLimit(limit)), existing)
  }

  /**
   * `import_obsidian`: 404 without the project; a folder error (the folder
   * escapes the Obsidian root, or is missing) as given; otherwise one new
   * source per note taken up. `notes` is the folder's sorted note list and
   * `ids` the uuids the loop would draw.
   */
  method ImportObsidian(db: Database, projectId: string, folder: Result<seq<Note>, HttpError>, limit: Option<int>,
                        ids: seq<string>, now: int) returns (r: Result<seq<SourceRow>, HttpError>)
    requires FreshIds(ids, db.sources)
    requires folder.Success? ==> |ids| >= |folder.value|
    modifies db
    ensures db.citations == old(db.citations)
    ensures projectId !in old(db.projects) ==> r == Failure(ProjectNotFound)
    ensures projectId in old(db.projects) && folder.Failure? ==> r == Failure(folder.error)
    ensures r.Success? <==> projectId in old(db.projects) && folder.Success?
    ensures r.Failure? ==> db.sources == old(db.sources)
    ensures r.Success? ==>
      var taken := ImportedNotes(folder.value, limit, ProjectUris(old(db.sources), projectId));
      && |ids| >= |taken|
      && r.value == NoteSources(projectId, taken, ids, now)
      && Stored(db.sources, old(db.sources), ids, r.value)
    ensures db.projects == old(db.projects) && db.decisions == old(db.decisions)
    ensures db.decisionCitations == old(db.decisionCitations) && db.tasks == old(db.tasks)
  {
    if projectId !in db.projects {
      return Failure(ProjectNotFound);
    }
    if folder.Failure? {
      return Failure(folder.error);
    }
    var considered := SliceTo(folder.value, ImportLimit(limit));
    var sources, imported := ImportNotes(db.sources, projectId, considered, ProjectUris(db.sources, projectId), ids, now);
    db.sources := sources;
    r := Success(imported);
  }

  /**
   * The new rows are stored under the first fresh ids, in order, and no
   * existing row is touched.
   */
  predicate Stored(sources: map<string, SourceRow>, before: map<string, SourceRow>, ids: seq<string>, imported: seq<SourceRow>) {
    && |imported| <= |ids|
    && sources.Keys == before.Keys + Elems(ids[..|imported|])
    && (forall k :: k in before ==> sources[k] == before[k])
    && (forall i :: 0 <= i < |imported| ==> sources[ids[i]] == imported[i])
  }

  /** The ids the import draws: pairwise distinct and none already a source. */
  ghost predicate FreshIds(ids: seq<string>, before: map<string, SourceRow>) {
    NoDups(ids) && forall i :: 0 <= i < |ids| ==> ids[i] !in before
  }

  /** `imported` holds one source per taken note, each stored under its id on top of `before`. */
  ghost predicate Imports(before: map<string, SourceRow>, projectId: string, ids: seq<string>, now: int,
                          sources: map<string, SourceRow>, taken: seq<Note>, imported: seq<SourceRow>) {
    && |taken| <= |ids|
    && imported == NoteSources(projectId, taken, ids, now)
    && Stored(sources, before, ids, imported)
  }

  /** One note of the import loop: a note whose uri is not known yet becomes a source under the next id. */
  method ImportNote(ghost before: map<string, SourceRow>, projectId: string, note: Note, existing: set<string>,
                    ids: seq<string>, now: int, sources0: map<string, SourceRow>, taken0: seq<Note>,
                    imported0: seq<SourceRow>)
    returns (sources: map<string, SourceRow>, taken: seq<Note>, imported: seq<SourceRow>)
    requires FreshIds(ids, before) && |taken0| < |ids|
    requires Imports(before, projectId, ids, now, sources0, taken0, imported0)
    ensures taken == taken0 + if note.uri in existing then [] else [note]
    ensures |taken| <= |ids| ==> Imports(before, projectId, ids, now, sources, taken, imported)
  {
    sources, taken, imported := sources0, taken0, imported0;
    if note.uri !in existing {
      var id := ids[|taken|];
      assert id !in before;
      var source := NoteSource(projectId, note, id, now);
      StoredStep(sources, before, ids, imported, source);
      NoteSourcesSnoc(projectId, taken, note, ids, now);
      sources := sources[id := source];
      taken := taken + [note];
      imported := imported + [source];
    } else {
      assert taken0 + [] == taken0;
    }
  }

  lemma StoredStep(sources: map<string, SourceRow>, before: map<string, SourceRow>, ids: seq<string>,
                   imported: seq<SourceRow>, source: SourceRow)
    requires Stored(sources, before, ids, imported) && |imported| < |ids|
    requires NoDups(ids) && ids[|imported|] !in before
    ensures Stored(sources[ids[|imported|] := source], before, ids, imported + [source])
  {
    var n := |imported|;
    var next := sources[ids[n] := source];
    NoDupsFresh(ids, n);
    ElemsPrefixSnoc(ids, n);
    forall i | 0 <= i < n + 1
      ensures next[ids[i]] == (imported + [source])[i]
    {
      if i < n {
        assert ids[..n][i] == ids[i];
      }
    }
  }

  /**
   * The loop of `import_obsidian`: each considered note whose URI is not
   * known becomes a new source under the next fresh id.
   */
  method ImportNotes(before: map<string, SourceRow>, projectId: string, considered: seq<Note>, existing: set<string>,
                     ids: seq<string>, now: int) returns (sources: map<string, SourceRow>, imported: seq<SourceRow>)
    requires FreshIds(ids, before)
    requires |ids| >= |considered|
    ensures var taken := NewNotes(considered, existing);
      && imported == NoteSources(projectId, taken, ids, now)
      && Stored(sources, before, ids, imported)
  {
    sources := before;
    imported := [];
    var taken: seq<Note> := [];
    var j := 0;
    while j < |considered|
      invariant 0 <= j <= |considered|
      invariant taken == NewNotes(considered[..j], existing)
      invariant Imports(before, projectId, ids, now, sources, taken, imported)
    {
      NewNotesSnoc(considered, j, existing);
      sources, taken, imported := ImportNote(before, projectId, considered[j], existing, ids, now, sources, taken, imported);
      j := j + 1;
    }
    assert considered[..|considered|] == considered;
  }

  /** An import takes up no more notes than the limit allows, nor than the folder holds, none already known. */
  lemma ImportedNotesBounds(notes: seq<Note>, limit: Option<int>, existing: set<string>)
    ensures |ImportedNotes(notes, limit, existing)| <= |notes|
    ensures ImportLimit(limit) >= 0 ==> |ImportedNotes(notes, limit, existing)| <= ImportLimit(limit)
    ensures forall n :: n in ImportedNotes(notes, limit, existing) ==> n in notes && n.uri !in existing
  {
  }

  /**
   * Importing again right after an import takes up nothing: every note
   * considered is now known by its URI.
   */
  lemma {:induction false} NewNotesAfterImport(notes: seq<Note>, existing: set<string>)
    ensures NewNotes(notes, existing + (set n | n in NewNotes(notes, existing) :: n.uri)) == []
  {
    var added := set n | n in NewNotes(notes, existing) :: n.uri;
    forall n | n in notes ensures n.uri in existing + added {
      if n.uri !in existing {
        assert n in NewNotes(notes, existing);
      }
    }
    NewNotesAllKnown(notes, existing + added);
  }

  lemma {:induction false} NewNotesAllKnown(notes: seq<Note>, known: set<string>)
    requires forall n :: n in notes ==> n.uri in known
    ensures NewNotes(notes, known) == []
  {
    if notes != [] {
      var init := notes[..|notes| - 1];
      assert forall n :: n in init ==> n in notes;
      NewNotesAllKnown(init, known);
      assert notes[|notes| - 1] in notes;
    }
  }
}
