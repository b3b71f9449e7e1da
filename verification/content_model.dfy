/** The content record (`ContentModel`): one row of the content table, hydrated either from the
    server catalog or from a locally extracted package, never from both at once. */
module ContentModel {
  import opened Common

  const IDENTIFIER_KEY := "identifier"
  const CONTENT_TYPE_KEY := "contentType"
  const MIME_TYPE_KEY := "mimeType"
  const VISIBILITY_KEY := "visibility"
  const LAST_UPDATED_ON_KEY := "lastUpdatedOn"
  const PRE_REQUISITES_KEY := "pre_requisites"
  const CHILDREN_KEY := "children"

  // Stand-ins for ContentConstants.Visibility.DEFAULT, ContentConstants.MimeType.APPLICATION and
  // ContentConstants.GENIE_EXTRACTED_ECAR_FOLDER_PATH; no proof depends on their spelling.
  const DEFAULT_VISIBILITY := "Default"
  const APPLICATION_MIME_TYPE := "application/vnd.android.package-archive"
  const EXTRACTED_ECAR_FOLDER := "/extracted_ecar"

  /** The `id` of a record that no database read has filled in. */
  const NO_ID := -1

  /** The reference count of a freshly built record. */
  const INITIAL_REF_COUNT := 1

  /** A column value: text, a map serialised by the JSON codec, a timestamp formatted by the
      date formatter, the search index joined from a map's values, or an integer. */
  datatype Cell =
    | Text(s: string)
    | Json(m: map<string, Value>)
    | Time(t: int)
    | Index(source: map<string, Value>)
    | Number(n: int)

  /** The `ContentValues` that `getContentValues` fills: one slot per column of the content
      table, `None` for a column that is not put. */
  datatype ContentValues = ContentValues(
    manifestVersion: Option<Cell>, identifier: Option<Cell>, serverData: Option<Cell>,
    localData: Option<Cell>, mimeType: Option<Cell>, path: Option<Cell>, visibility: Option<Cell>,
    contentType: Option<Cell>, localLastUpdatedOn: Option<Cell>, serverLastUpdatedOn: Option<Cell>,
    index: Option<Cell>, refCount: Option<Cell>, contentState: Option<Cell>)

  /** A fresh `ContentValues`: no column put. */
  const NO_VALUES := ContentValues(None, None, None, None, None, None, None, None, None, None, None, None, None)

  /** One stored row of the content table, keyed in the table by its identifier column. */
  datatype ContentRow = ContentRow(
    id: int,
    serverData: Option<map<string, Value>>,
    localData: Option<map<string, Value>>,
    mimeType: Option<string>,
    path: Option<string>,
    visibility: Option<string>,
    refCount: int,
    contentState: int,
    contentType: Option<string>,
    localLastUpdatedOn: Option<string>)

  /** `String.toLowerCase` on the ASCII letters. */
  function LowerChar(c: char): char
  {
    if 'A' <= c <= 'Z' then (c as int + 32) as char else c
  }

  function ToLower(s: string): (r: string)
    ensures |r| == |s|
    ensures forall i :: 0 <= i < |r| ==> !('A' <= r[i] <= 'Z')
    ensures forall i :: 0 <= i < |s| && 'A' <= s[i] <= 'Z' ==> r[i] == (s[i] as int + 32) as char
    ensures forall i :: 0 <= i < |s| && !('A' <= s[i] <= 'Z') ==> r[i] == s[i]
  {
    seq(|s|, i requires 0 <= i < |s| => LowerChar(s[i]))
  }

  /** `String.contains`. */
  predicate Contains(s: string, part: string)
    decreases |s|
  {
    |part| <= |s| && (s[..|part|] == part || Contains(s[1..], part))
  }

  /** `part` occurs in `s` starting at index `i`. */
  predicate At(s: string, part: string, i: int)
  {
    0 <= i && i + |part| <= |s| && s[i..i + |part|] == part
  }

  /** `Contains` holds exactly when `part` occurs at some index of `s`. */
  lemma {:induction false} ContainsAt(s: string, part: string)
    ensures Contains(s, part) <==> exists i :: At(s, part, i)
    decreases |s|
  {
    if |part| > |s| {
    } else if s[..|part|] == part {
      assert At(s, part, 0);
    } else {
      ContainsAt(s[1..], part);
      forall i | At(s[1..], part, i)
        ensures At(s, part, i + 1)
      {
        assert s[1..][i..i + |part|] == s[i + 1..i + 1 + |part|];
      }
      forall i | At(s, part, i)
        ensures At(s[1..], part, i - 1)
      {
        assert i != 0;
        assert s[1..][i - 1..i - 1 + |part|] == s[i..i + |part|];
      }
    }
  }

  /** Whether a record's path lies inside a folder extracted from a distributable archive: the
      path is not empty and the folder name occurs somewhere in it. */
  function IsExternalContent(path: Option<string>): (r: bool)
    ensures r ==> path.Some? && |path.value| > 0
    ensures r <==> !NullOrEmpty(path) && exists i :: At(path.value, EXTRACTED_ECAR_FOLDER, i)
  {
    if NullOrEmpty(path) then false
    else
      ContainsAt(path.value, EXTRACTED_ECAR_FOLDER);
      Contains(path.value, EXTRACTED_ECAR_FOLDER)
  }

  /** The entries read with a `(String)` cast hold a string or null when present. */
  predicate StringEntries(data: map<string, Value>)
  {
    forall key :: key in data && key in {IDENTIFIER_KEY, MIME_TYPE_KEY, CONTENT_TYPE_KEY, VISIBILITY_KEY}
      ==> StringOrNull(data[key])
  }

  /** The list under `key` holds objects (the `Map` the loop casts each element to) whose
      identifier, if any, is not itself an object. */
  predicate IdentifierList(data: map<string, Value>, key: string)
  {
    && key in data
    && data[key].Arr?
    && forall i :: 0 <= i < |data[key].items| ==>
         data[key].items[i].Obj? && Renderable(Get(data[key].items[i].fields, IDENTIFIER_KEY))
  }

  /** `String.valueOf(child.get("identifier"))`: a missing or null identifier renders as "null",
      a string as itself, any other value as Java prints it. */
  function IdentifierOf(child: Value): string
    requires child.Obj? && Renderable(Get(child.fields, IDENTIFIER_KEY))
  {
    Render(Get(child.fields, IDENTIFIER_KEY))
  }

  /** `with(contentValues, key, value)` on one column's slot: the value is put unless it is null,
      in which case the slot keeps what it held. */
  function With(slot: Option<Cell>, cell: Option<Cell>): (r: Option<Cell>)
    ensures cell.Some? ==> r == cell
    ensures cell.None? ==> r == slot
  {
    if cell.Some? then cell else slot
  }

  function TextCell(s: Option<string>): Option<Cell>
  {
    if s.Some? then Some(Text(s.value)) else None
  }

  function JsonCell(m: Option<map<string, Value>>): Option<Cell>
  {
    if m.Some? then Some(Json(m.value)) else None
  }

  class ContentRecord {
    var id: int
    var identifier: Option<string>
    var serverData: Option<map<string, Value>>
    var localData: Option<map<string, Value>>
    var mimeType: Option<string>
    var path: Option<string>
    var visibility: Option<string>
    var refCount: int
    var contentState: int
    var contentType: Option<string>
    var manifestVersion: Option<string>
    var localLastUpdatedTime: Option<string>
    var externalContent: bool
    var lastModified: int

    /** `ContentModel.build()` and the data constructor given null data: every field unset. */
    constructor Empty()
      ensures Unset()
    {
      id, identifier, serverData, localData := NO_ID, None, None, None;
      mimeType, path, visibility, contentType := None, None, None, None;
      refCount, contentState := INITIAL_REF_COUNT, 0;
      manifestVersion, localLastUpdatedTime, externalContent, lastModified := None, None, false, 0;
    }

    /** Every field holds the value a freshly allocated record starts with. */
    predicate Unset()
      reads this
    {
      && id == NO_ID && identifier.None? && serverData.None? && localData.None?
      && mimeType.None? && path.None? && visibility.None? && contentType.None?
      && refCount == INITIAL_REF_COUNT && contentState == 0
      && manifestVersion.None? && localLastUpdatedTime.None? && !externalContent && lastModified == 0
    }

    /** The constructor `find` uses: only the identifier is set. */
    constructor ForIdentifier(identifier: string)
      ensures this.identifier == Some(identifier)
      ensures id == NO_ID && serverData.None? && localData.None? && path.None?
      ensures refCount == INITIAL_REF_COUNT && !externalContent && lastModified == 0
      ensures mimeType.None? && visibility.None? && contentType.None? && contentState == 0
      ensures manifestVersion.None? && localLastUpdatedTime.None?
    {
      this.identifier := Some(identifier);
      id, serverData, localData := NO_ID, None, None;
      mimeType, path, visibility, contentType := None, None, None, None;
      refCount, contentState := INITIAL_REF_COUNT, 0;
      manifestVersion, localLastUpdatedTime, externalContent, lastModified := None, None, false, 0;
    }

    /** `ContentModel.build(dbSession, data, manifestVersion, isLocal)`. */
    constructor Build(data: Option<map<string, Value>>, manifestVersion: Option<string>, isLocalData: bool)
      requires data.Some? ==> StringEntries(data.value)
      ensures data.None? ==> Unset()
      ensures data.Some? ==>
        && id == NO_ID && refCount == INITIAL_REF_COUNT && contentState == 0
        && path.None? && localLastUpdatedTime.None? && !externalContent && lastModified == 0
      ensures data.Some? ==> Hydrated(data.value, manifestVersion, isLocalData)
    {
      id, identifier, serverData, localData := NO_ID, None, None, None;
      mimeType, path, visibility, contentType := None, None, None, None;
      refCount, contentState := INITIAL_REF_COUNT, 0;
      this.manifestVersion, localLastUpdatedTime, externalContent, lastModified := None, None, false, 0;
      new;
      if data.Some? {
        Hydrate(data.value, manifestVersion, isLocalData);
      }
    }

    /** What `build` takes from a received map: the map as its data and the attributes read from it. */
    ghost predicate Hydrated(d: map<string, Value>, manifestVersion: Option<string>, isLocalData: bool)
      requires StringEntries(d)
      reads this
    {
      DataFrom(d, manifestVersion, isLocalData) && AttributesFrom(d)
    }

    /** The received map is kept as local data, with the manifest version, or as server data. */
    ghost predicate DataFrom(d: map<string, Value>, manifestVersion: Option<string>, isLocalData: bool)
      reads this
    {
      && (isLocalData ==> localData == Some(d) && this.manifestVersion == manifestVersion && serverData.None?)
      && (!isLocalData ==> serverData == Some(d) && localData.None? && this.manifestVersion.None?)
    }

    /** The identifier, mime type, content type (lower-cased when not empty) and visibility
        (defaulted when the key is absent) are read from the received map. */
    ghost predicate AttributesFrom(d: map<string, Value>)
      requires StringEntries(d)
      reads this
    {
      && identifier == AsString(Get(d, IDENTIFIER_KEY))
      && mimeType == AsString(Get(d, MIME_TYPE_KEY))
      && (contentType.Some? <==> AsString(Get(d, CONTENT_TYPE_KEY)).Some?)
      && (contentType.Some? ==> contentType.value == ToLower(d[CONTENT_TYPE_KEY].s))
      && visibility == (if VISIBILITY_KEY in d then AsString(d[VISIBILITY_KEY]) else Some(DEFAULT_VISIBILITY))
    }

    /** The data-dependent part of `build`, run on a freshly emptied model. */
    method Hydrate(d: map<string, Value>, manifestVersion: Option<string>, isLocalData: bool)
      requires StringEntries(d)
      requires identifier.None? && mimeType.None? && contentType.None?
      requires serverData.None? && localData.None? && this.manifestVersion.None?
      modifies this`manifestVersion, this`localData, this`serverData, this`identifier
      modifies this`mimeType, this`contentType, this`visibility
      ensures Hydrated(d, manifestVersion, isLocalData)
    {
      if isLocalData {
        this.manifestVersion := manifestVersion;
        localData := Some(d);
      } else {
        serverData := Some(d);
      }
      ReadAttributes(d);
    }

    /** The keys `build` reads from the received map. */
    method ReadAttributes(d: map<string, Value>)
      requires StringEntries(d)
      requires identifier.None? && mimeType.None? && contentType.None?
      modifies this`identifier, this`mimeType, this`contentType, this`visibility
      ensures AttributesFrom(d)
    {
      if IDENTIFIER_KEY in d {
        identifier := AsString(d[IDENTIFIER_KEY]);
      }
      if MIME_TYPE_KEY in d {
        mimeType := AsString(d[MIME_TYPE_KEY]);
      }
      if CONTENT_TYPE_KEY in d {
        var raw := AsString(d[CONTENT_TYPE_KEY]);
        contentType := if !NullOrEmpty(raw) then Some(ToLower(raw.value)) else raw;
      }
      visibility := if VISIBILITY_KEY in d then AsString(d[VISIBILITY_KEY]) else Some(DEFAULT_VISIBILITY);
    }

    /** `readWithoutMoving`: load every stored column; the manifest version and the file's
        modification time are not columns that are read back. */
    method ReadWithoutMoving(key: string, row: ContentRow)
      modifies this
      ensures id == row.id && identifier == Some(key)
      ensures serverData == row.serverData && localData == row.localData
      ensures mimeType == row.mimeType && path == row.path && visibility == row.visibility
      ensures refCount == row.refCount && contentState == row.contentState
      ensures contentType == row.contentType && localLastUpdatedTime == row.localLastUpdatedOn
      ensures externalContent == IsExternalContent(row.path)
      ensures manifestVersion == old(manifestVersion) && lastModified == old(lastModified)
    {
      ReadContentColumns(key, row);
      ReadStateColumns(row);
    }

    /** The first half of `readWithoutMoving`: the row id, the identifier, both data maps, the
        mime type and the path. */
    method ReadContentColumns(key: string, row: ContentRow)
      modifies this`id, this`identifier, this`serverData, this`localData, this`mimeType, this`path
      ensures id == row.id && identifier == Some(key)
      ensures serverData == row.serverData && localData == row.localData
      ensures mimeType == row.mimeType && path == row.path
    {
      id := row.id;
      identifier := Some(key);
      serverData, localData := row.serverData, row.localData;
      mimeType, path := row.mimeType, row.path;
    }

    /** The second half of `readWithoutMoving`: visibility, reference count, state, content type,
        local update time, and the external-content flag recomputed from the row's path. */
    method ReadStateColumns(row: ContentRow)
      modifies this`visibility, this`refCount, this`contentState, this`contentType
      modifies this`localLastUpdatedTime, this`externalContent
      ensures visibility == row.visibility
      ensures refCount == row.refCount && contentState == row.contentState
      ensures contentType == row.contentType && localLastUpdatedTime == row.localLastUpdatedOn
      ensures externalContent == IsExternalContent(row.path)
    {
      visibility := row.visibility;
      refCount, contentState := row.refCount, row.contentState;
      contentType, localLastUpdatedTime := row.contentType, row.localLastUpdatedOn;
      externalContent := IsExternalContent(row.path);
    }

    /** `addOrUpdateRefCount`: a negative count is stored as 0. */
    method AddOrUpdateRefCount(n: int)
      modifies this`refCount
      ensures refCount >= 0
      ensures refCount == if n < 0 then 0 else n
    {
      var count := n;
      if count < 0 {
        count := 0;
      }
      refCount := count;
    }

    method AddOrUpdateContentState(state: int)
      modifies this`contentState
      ensures contentState == state
    {
      contentState := state;
    }

    method SetVisibility(v: Option<string>)
      modifies this`visibility
      ensures visibility == v
    {
      visibility := v;
    }

    method SetFileLastModified(t: int)
      modifies this`lastModified
      ensures lastModified == t
    {
      lastModified := t;
    }

    /** `updateId`, called by the session after an insert. */
    method UpdateId(newId: int)
      modifies this`id
      ensures id == newId
    {
      id := newId;
    }

    /** `clean`: forget the row id after the row is deleted. */
    method Clean()
      modifies this`id
      ensures id == NO_ID
    {
      id := NO_ID;
    }

    /** `hasChildren`: local data exists and holds a non-null `children` entry. */
    predicate HasChildren(): (r: bool)
      reads this
      ensures r <==> localData.Some? && CHILDREN_KEY in localData.value && localData.value[CHILDREN_KEY] != Null
    {
      localData.Some? && Get(localData.value, CHILDREN_KEY) != Null
    }

    /** `hasPreRequisites`: local data exists and holds a non-null `pre_requisites` entry. */
    predicate HasPreRequisites(): (r: bool)
      reads this
      ensures r <==> localData.Some? && PRE_REQUISITES_KEY in localData.value && localData.value[PRE_REQUISITES_KEY] != Null
    {
      localData.Some? && Get(localData.value, PRE_REQUISITES_KEY) != Null
    }

    /** The list of objects stored under `key` in the local data. */
    function Listed(key: string): seq<Value>
      reads this
      requires localData.Some? && IdentifierList(localData.value, key)
    {
      localData.value[key].items
    }

    /** The loop shared by the two identifier getters: one identifier per listed object, in order. */
    method IdentifiersUnder(key: string) returns (ids: seq<string>)
      requires localData.Some? && IdentifierList(localData.value, key)
      ensures |ids| == |Listed(key)|
      ensures forall i :: 0 <= i < |ids| ==> ids[i] == IdentifierOf(Listed(key)[i])
    {
      var children := localData.value[key].items;
      ids := [];
      var i := 0;
      while i < |children|
        invariant 0 <= i <= |children|
        invariant |ids| == i
        invariant forall j :: 0 <= j < i ==> ids[j] == IdentifierOf(children[j])
      {
        ids := ids + [IdentifierOf(children[i])];
        i := i + 1;
      }
    }

    /** `getChildContentsIdentifiers`, on a record whose local data lists its children. */
    method GetChildContentsIdentifiers() returns (ids: seq<string>)
      requires HasChildren() && IdentifierList(localData.value, CHILDREN_KEY)
      ensures |ids| == |Listed(CHILDREN_KEY)|
      ensures forall i :: 0 <= i < |ids| ==> ids[i] == IdentifierOf(Listed(CHILDREN_KEY)[i])
    {
      ids := IdentifiersUnder(CHILDREN_KEY);
    }

    /** `getPreRequisitesIdentifiers`, on a record whose local data lists its prerequisites. */
    method GetPreRequisitesIdentifiers() returns (ids: seq<string>)
      requires HasPreRequisites() && IdentifierList(localData.value, PRE_REQUISITES_KEY)
      ensures |ids| == |Listed(PRE_REQUISITES_KEY)|
      ensures forall i :: 0 <= i < |ids| ==> ids[i] == IdentifierOf(Listed(PRE_REQUISITES_KEY)[i])
    {
      ids := IdentifiersUnder(PRE_REQUISITES_KEY);
    }

    /** `searchIndex`: the map whose values are joined into the searchable text. For the
        application mime type only server data may be indexed; otherwise local data wins. */
    function SearchIndexSource(): (r: Option<map<string, Value>>)
      reads this
      ensures r.Some? ==> r == serverData || r == localData
      ensures mimeType == Some(APPLICATION_MIME_TYPE) ==> r == serverData
      ensures mimeType != Some(APPLICATION_MIME_TYPE) && localData.Some? ==> r == localData
      ensures r.None? <==> serverData.None? && (localData.None? || mimeType == Some(APPLICATION_MIME_TYPE))
    {
      if mimeType == Some(APPLICATION_MIME_TYPE) then
        (if serverData.Some? then serverData else None)
      else if localData.Some? then localData
      else if serverData.Some? then serverData
      else None
    }

    /** `localLastUpdatedOn`, with the clock reading `now` as a parameter: the time of writing for
        local data, overridden by the file's modification time for externally extracted content. */
    function LocalLastUpdatedOn(now: int): (r: Option<int>)
      reads this
      ensures IsExternalContent(path) ==> r == Some(lastModified)
      ensures !IsExternalContent(path) && localData.Some? ==> r == Some(now)
      ensures r.None? <==> !IsExternalContent(path) && localData.None?
    {
      var t := if localData.Some? then Some(now) else None;
      if IsExternalContent(path) then Some(lastModified) else t
    }

    /** The `lastUpdatedOn` entry of the server data is read with a `(String)` cast. */
    predicate ServerTimestampReadable()
      reads this
    {
      serverData.Some? ==> StringOrNull(Get(serverData.value, LAST_UPDATED_ON_KEY))
    }

    /** `serverLastUpdatedOn`: the server data's `lastUpdatedOn`, null without server data. */
    function ServerLastUpdatedOn(): (r: Option<string>)
      reads this
      requires ServerTimestampReadable()
      ensures serverData.None? ==> r.None?
      ensures r.Some? <==> serverData.Some? && Get(serverData.value, LAST_UPDATED_ON_KEY).Str?
      ensures r.Some? ==> r.value == serverData.value[LAST_UPDATED_ON_KEY].s
    {
      if serverData.Some? then AsString(Get(serverData.value, LAST_UPDATED_ON_KEY)) else None
    }

    /** `getContentValues` (and `getFieldsToUpdate`, which writes the same columns): a column is
        put exactly when its value is non-null, except the reference count and state, which
        always are; the time and index columns take the derived values. */
    method GetContentValues(now: int) returns (cv: ContentValues)
      requires ServerTimestampReadable()
      ensures cv.manifestVersion == TextCell(manifestVersion) && cv.identifier == TextCell(identifier)
      ensures cv.serverData == JsonCell(serverData) && cv.localData == JsonCell(localData)
      ensures cv.mimeType == TextCell(mimeType) && cv.path == TextCell(path)
      ensures cv.visibility == TextCell(visibility) && cv.contentType == TextCell(contentType)
      ensures cv.localLastUpdatedOn.Some? <==> LocalLastUpdatedOn(now).Some?
      ensures cv.localLastUpdatedOn.Some? ==> cv.localLastUpdatedOn.value == Time(LocalLastUpdatedOn(now).value)
      ensures cv.serverLastUpdatedOn == TextCell(ServerLastUpdatedOn())
      ensures cv.index.Some? <==> SearchIndexSource().Some?
      ensures cv.index.Some? ==> cv.index.value == Index(SearchIndexSource().value)
      ensures cv.refCount == Some(Number(refCount)) && cv.contentState == Some(Number(contentState))
    {
      cv := NO_VALUES;
      cv := cv.(manifestVersion := With(cv.manifestVersion, TextCell(manifestVersion)));
      cv := cv.(identifier := With(cv.identifier, TextCell(identifier)));
      cv := cv.(serverData := With(cv.serverData, JsonCell(serverData)));
      cv := cv.(localData := With(cv.localData, JsonCell(localData)));
      cv := cv.(mimeType := With(cv.mimeType, TextCell(mimeType)));
      cv := cv.(path := With(cv.path, TextCell(path)));
      cv := cv.(visibility := With(cv.visibility, TextCell(visibility)));
      cv := cv.(contentType := With(cv.contentType, TextCell(contentType)));
      var localTime := LocalLastUpdatedOn(now);
      cv := cv.(localLastUpdatedOn := With(cv.localLastUpdatedOn, if localTime.Some? then Some(Time(localTime.value)) else None));
      cv := cv.(serverLastUpdatedOn := With(cv.serverLastUpdatedOn, TextCell(ServerLastUpdatedOn())));
      var index := SearchIndexSource();
      cv := cv.(index := With(cv.index, if index.Some? then Some(Index(index.value)) else None));
      cv := cv.(refCount := Some(Number(refCount)));
      cv := cv.(contentState := Some(Number(contentState)));
    }
  }

  /** `ContentModel.find`: read the row stored under `identifier`; null when the read leaves the
      id at its unset value. The content table is a map from identifier to row. */
  method Find(table: map<string, ContentRow>, identifier: string) returns (r: ContentRecord?)
    ensures r == null <==> identifier !in table || table[identifier].id == NO_ID
    ensures r != null ==>
      && r.id == table[identifier].id && r.identifier == Some(identifier)
      && r.serverData == table[identifier].serverData && r.localData == table[identifier].localData
      && r.mimeType == table[identifier].mimeType && r.path == table[identifier].path
      && r.visibility == table[identifier].visibility && r.refCount == table[identifier].refCount
      && r.contentState == table[identifier].contentState
      && r.contentType == table[identifier].contentType
      && r.localLastUpdatedTime == table[identifier].localLastUpdatedOn
      && r.externalContent == IsExternalContent(table[identifier].path)
      && r.manifestVersion.None? && r.lastModified == 0
  {
    var content := new ContentRecord.ForIdentifier(identifier);
    if identifier in table {
      content.ReadWithoutMoving(identifier, table[identifier]);
    }
    if content.id == NO_ID {
      r := null;
    } else {
      r := content;
    }
  }

  /** Lower-casing the content type a second time changes nothing: what is stored is already
      in normal form. */
  lemma {:induction false} ToLowerIdempotent(s: string)
    ensures ToLower(ToLower(s)) == ToLower(s)
  {
    var once := ToLower(s);
    forall i | 0 <= i < |once|
      ensures ToLower(once)[i] == once[i]
    {
      assert !('A' <= once[i] <= 'Z');
    }
  }
}
