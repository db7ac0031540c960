/** The paged store of a conversation: live patches go to the page that owns their record. */
module ConversationHistory {
  import opened Wrappers

  // A projected record; `contents` are the log items it shows.
  datatype Record = Record(key: int, endSeq: int, revision: int, contents: seq<int>)

  datatype Patch = Patch(key: int, revision: int, item: Option<Record>)

  datatype Page = Page(transcript: Option<seq<Record>>, items: seq<int>, before: Option<int>, cursor: int,
      activity: Option<string>)

  // The transcripts of the pages, oldest page first.
  type Transcripts = seq<seq<Record>>

  function Has(records: seq<Record>, key: int): bool {
    exists r <- records :: r.key == key
  }

  function Find(records: seq<Record>, key: int): (r: Record)
    requires Has(records, key)
    ensures r in records && r.key == key
  {
    if records[0].key == key then records[0]
    else
      assert records == [records[0]] + records[1..];
      Find(records[1..], key)
  }

  /** The first page that has a record with the key, or else the number of pages. */
  function OwnerOf(pages: Transcripts, key: int): (owner: nat)
    ensures owner <= |pages|
    ensures forall p | 0 <= p < owner :: !Has(pages[p], key)
    ensures owner < |pages| ==> Has(pages[owner], key)
  {
    if pages == [] || Has(pages[0], key) then 0 else 1 + OwnerOf(pages[1..], key)
  }

  function Without(records: seq<Record>, key: int): seq<Record> {
    if records == [] then []
    else
      Without(records[..|records| - 1], key)
      + if records[|records| - 1].key == key then [] else [records[|records| - 1]]
  }

  function AllWithout(pages: Transcripts, key: int): (rest: Transcripts)
    ensures |rest| == |pages| && forall p | 0 <= p < |pages| :: rest[p] == Without(pages[p], key)
  {
    seq(|pages|, p requires 0 <= p < |pages| => Without(pages[p], key))
  }

  function Patched(pages: Transcripts, patch: Patch, floor: int): (patched: Transcripts)
    requires pages != []
    ensures |patched| == |pages|
  {
    var owner := OwnerOf(pages, patch.key);
    if owner < |pages| && Find(pages[owner], patch.key).revision > patch.revision then pages
    else
      var rest := AllWithout(pages, patch.key);
      if patch.item.None? || (owner == |pages| && patch.item.value.endSeq < floor) then rest
      else
        var target := if owner == |pages| then |pages| - 1 else owner;
        rest[target := rest[target] + [patch.item.value]]
  }

  function AllPatched(pages: Transcripts, patches: seq<Patch>, floor: int): (patched: Transcripts)
    requires pages != []
    ensures |patched| == |pages|
  {
    if patches == [] then pages
    else Patched(AllPatched(pages, patches[..|patches| - 1], floor), patches[|patches| - 1], floor)
  }

  // Stable insertion sort by key.
  function Insert(records: seq<Record>, record: Record): seq<Record> {
    if records != [] && records[|records| - 1].key > record.key then
      Insert(records[..|records| - 1], record) + [records[|records| - 1]]
    else records + [record]
  }

  function Sorted(records: seq<Record>): seq<Record> {
    if records == [] then [] else Insert(Sorted(records[..|records| - 1]), records[|records| - 1])
  }

  function LogItems(records: seq<Record>): seq<int> {
    if records == [] then [] else LogItems(records[..|records| - 1]) + records[|records| - 1].contents
  }

  function TranscriptsOf(pages: seq<Page>): (transcripts: Transcripts)
    ensures |transcripts| == |pages|
    ensures forall p | 0 <= p < |pages| :: transcripts[p] == pages[p].transcript.GetOr([])
  {
    seq(|pages|, p requires 0 <= p < |pages| => pages[p].transcript.GetOr([]))
  }

  // What a reader keeps: per key the newest record, and of equally new ones the last.

  function Newest(kept: map<int, Record>, records: seq<Record>): map<int, Record> {
    if records == [] then kept
    else
      var before, r := Newest(kept, records[..|records| - 1]), records[|records| - 1];
      if r.key in before && before[r.key].revision > r.revision then before else before[r.key := r]
  }

  function NewestOf(pages: Transcripts): map<int, Record> {
    if pages == [] then map[] else Newest(NewestOf(pages[..|pages| - 1]), pages[|pages| - 1])
  }

  /** The list holds exactly the records of the map, by key. */
  ghost predicate Lists(records: seq<Record>, kept: map<int, Record>) {
    Ascending(records) && forall r: Record :: r in records <==> r.key in kept && kept[r.key] == r
  }

  method CollectNewest(pages: seq<Page>) returns (items: map<int, Record>)
    ensures items == NewestOf(TranscriptsOf(pages)) && forall key <- items :: items[key].key == key
  {
    items := map[];
    ghost var all := TranscriptsOf(pages);
    var p := 0;
    while p < |pages|
      invariant 0 <= p <= |pages| && items == NewestOf(all[..p])
      invariant forall key <- items :: items[key].key == key
    {
      assert all[..p + 1][..p] == all[..p];
      var transcript := pages[p].transcript.GetOr([]);
      ghost var before := items;
      var k := 0;
      while k < |transcript|
        invariant 0 <= k <= |transcript| && items == Newest(before, transcript[..k])
        invariant forall key <- items :: items[key].key == key
      {
        assert transcript[..k + 1][..k] == transcript[..k];
        var r := transcript[k];
        if r.key !in items || items[r.key].revision <= r.revision {
          items := items[r.key := r];
        }
        k := k + 1;
      }
      assert transcript[..k] == transcript;
      p := p + 1;
    }
    assert all[..p] == all;
  }

  lemma HasMember(keys: set<int>)
    ensures keys == {} || exists key :: key in keys
  {
    if forall key :: key !in keys {
      assert keys == {};
    }
  }

  lemma NothingAscends()
    ensures Ascending([])
  {
  }

  /** The values of a map, sorted by key, whatever order they are taken in. */
  method SortValues(items: map<int, Record>) returns (sorted: seq<Record>)
    requires forall key <- items :: items[key].key == key
    ensures Lists(sorted, items)
  {
    hide Insert, Ascending;
    sorted := [];
    NothingAscends();
    var rest := items.Keys;
    while rest != {}
      invariant rest <= items.Keys && Ascending(sorted)
      invariant forall r: Record :: r in sorted <==> r.key in items.Keys - rest && items[r.key] == r
      decreases |rest|
    {
      HasMember(rest);
      var key :| key in rest;
      InsertFacts(sorted, items[key]);
      sorted := Insert(sorted, items[key]);
      rest := rest - {key};
    }
  }

  method RetainedConversation(pages: seq<Page>) returns (kept: Option<seq<Record>>)
    ensures kept.Some? <==> exists p :: 0 <= p < |pages| && pages[p].transcript.Some?
    ensures kept.Some? ==> Lists(kept.value, NewestOf(TranscriptsOf(pages)))
  {
    if forall p | 0 <= p < |pages| :: pages[p].transcript.None? {
      return None;
    }
    var items := CollectNewest(pages);
    var sorted := SortValues(items);
    return Some(sorted);
  }

  function LeastOf(records: seq<Record>, least: Option<int>): Option<int> {
    if records == [] then least
    else
      var before, key := LeastOf(records[..|records| - 1], least), records[|records| - 1].key;
      if before.Some? && before.value <= key then before else Some(key)
  }

  /** The first key of what is retained. */
  function LeastKey(pages: Transcripts): Option<int> {
    if pages == [] then None else LeastOf(pages[|pages| - 1], LeastKey(pages[..|pages| - 1]))
  }

  /** The key below which history is not loaded. */
  function Floor(pages: seq<Page>): int
    requires pages != []
  {
    var least := LeastKey(TranscriptsOf(pages));
    if least.Some? then least.value else pages[0].before.GetOr(0)
  }

  function Refreshed(page: Page, transcript: seq<Record>): Page {
    page.(transcript := Some(Sorted(transcript)), items := LogItems(Sorted(transcript)))
  }

  function Latest(page: Page, cursor: int, activity: Option<string>): Page {
    page.(cursor := if page.cursor < cursor then cursor else page.cursor,
          activity := if activity.Some? then activity else page.activity)
  }

  function Merged(pages: seq<Page>, changes: seq<Patch>, cursor: int, activity: Option<string>): (merged: seq<Page>)
    ensures |merged| == |pages|
  {
    if pages == [] then pages
    else
      var transcripts := AllPatched(TranscriptsOf(pages), changes, Floor(pages));
      seq(|pages|, p requires 0 <= p < |pages| =>
        if p == |pages| - 1 then Latest(Refreshed(pages[p], transcripts[p]), cursor, activity)
          else Refreshed(pages[p], transcripts[p]))
  }

  method ApplyPatch(pages: Transcripts, patch: Patch, floor: int) returns (patched: Transcripts)
    requires pages != []
    ensures patched == Patched(pages, patch, floor)
  {
    patched := pages;
    var owner := OwnerOf(pages, patch.key);
    if owner < |pages| && Find(pages[owner], patch.key).revision > patch.revision {
      return;
    }
    var p := 0;
    while p < |pages|
      invariant 0 <= p <= |pages| == |patched|
      invariant forall q | 0 <= q < |pages| :: patched[q] == if q < p then Without(pages[q], patch.key) else pages[q]
    {
      patched := patched[p := Without(patched[p], patch.key)];
      p := p + 1;
    }
    assert patched == AllWithout(pages, patch.key);
    hide Find, Without, AllWithout;
    if patch.item.None? || (owner == |pages| && patch.item.value.endSeq < floor) {
      return;
    }
    if owner == |pages| {
      owner := |pages| - 1;
    }
    patched := patched[owner := patched[owner] + [patch.item.value]];
  }

  method MergeConversationChanges(pages: seq<Page>, changes: seq<Patch>, cursor: int, activity: Option<string>)
      returns (merged: seq<Page>)
    ensures merged == Merged(pages, changes, cursor, activity)
  {
    hide Patched, Floor, Sorted, LogItems;
    if pages == [] {
      return pages;
    }
    var floor := Floor(pages);
    var transcripts := TranscriptsOf(pages);
    var k := 0;
    while k < |changes|
      invariant 0 <= k <= |changes| && |transcripts| == |pages|
      invariant transcripts == AllPatched(TranscriptsOf(pages), changes[..k], floor)
    {
      assert changes[..k + 1][..k] == changes[..k];
      transcripts := ApplyPatch(transcripts, changes[k], floor);
      k := k + 1;
    }
    assert changes[..k] == changes;
    merged := pages;
    var p := 0;
    while p < |pages|
      invariant 0 <= p <= |pages| == |merged|
      invariant forall q | 0 <= q < |pages| :: merged[q] == if q < p then Refreshed(pages[q], transcripts[q])
                else pages[q]
    {
      var sorted := Sorted(transcripts[p]);
      merged := merged[p := merged[p].(transcript := Some(sorted), items := LogItems(sorted))];
      p := p + 1;
    }
    var last := |merged| - 1;
    merged := merged[last := Latest(merged[last], cursor, activity)];
  }

  // The flat map that the pages stand for.

  ghost predicate Holds(pages: Transcripts, r: Record) {
    exists p :: 0 <= p < |pages| && r in pages[p]
  }

  ghost predicate Distinct(records: seq<Record>) {
    forall i, j | 0 <= i < j < |records| :: records[i].key != records[j].key
  }

  /** Each key is in at most one page, once. */
  ghost predicate Unique(pages: Transcripts) {
    && (forall p | 0 <= p < |pages| :: Distinct(pages[p]))
    && (forall p, q | 0 <= p < q < |pages| :: Apart(pages[p], pages[q]))
  }

  ghost predicate Apart(a: seq<Record>, b: seq<Record>) {
    forall x <- a, y <- b :: x.key != y.key
  }

  /** The flat map holds exactly the records of the pages. */
  ghost predicate Flat(pages: Transcripts, flat: map<int, Record>) {
    && (forall key <- flat :: flat[key].key == key && Holds(pages, flat[key]))
    && (forall r: Record | Holds(pages, r) :: r.key in flat && flat[r.key] == r)
  }

  function FlatPatched(flat: map<int, Record>, patch: Patch, floor: int): map<int, Record> {
    if patch.key in flat && flat[patch.key].revision > patch.revision then flat
    else if patch.item.None? then flat - {patch.key}
    else if patch.key !in flat && patch.item.value.endSeq < floor then flat
    else flat[patch.key := patch.item.value]
  }

  function AllFlatPatched(flat: map<int, Record>, patches: seq<Patch>, floor: int): map<int, Record> {
    if patches == [] then flat
    else FlatPatched(AllFlatPatched(flat, patches[..|patches| - 1], floor), patches[|patches| - 1], floor)
  }

  /** A patch is about its own key and revision. */
  predicate WellFormed(patch: Patch) {
    patch.item.Some? ==> patch.item.value.key == patch.key && patch.item.value.revision == patch.revision
  }

  lemma {:induction false} WithoutFacts(records: seq<Record>, key: int)
    ensures forall r: Record :: r in Without(records, key) <==> r in records && r.key != key
    ensures Distinct(records) ==> Distinct(Without(records, key))
  {
    if records != [] {
      var shorter, last := records[..|records| - 1], records[|records| - 1];
      assert records == shorter + [last];
      WithoutFacts(shorter, key);
      if Distinct(records) {
        forall i | 0 <= i < |shorter| ensures shorter[i].key != last.key {
          assert records[i].key != records[|records| - 1].key;
        }
        assert Distinct(shorter);
      }
    }
  }

  lemma RestFacts(pages: Transcripts, key: int)
    requires Unique(pages)
    ensures Unique(AllWithout(pages, key))
    ensures forall r: Record :: Holds(AllWithout(pages, key), r) <==> Holds(pages, r) && r.key != key
  {
    var rest := AllWithout(pages, key);
    forall p | 0 <= p < |pages|
      ensures Distinct(rest[p]) && forall r: Record :: r in rest[p] <==> r in pages[p] && r.key != key
    {
      WithoutFacts(pages[p], key);
    }
    hide AllWithout, Without, Distinct;
    forall p, q | 0 <= p < q < |pages| ensures Apart(rest[p], rest[q]) {
      assert Apart(pages[p], pages[q]);
    }
    forall r: Record | Holds(pages, r) && r.key != key ensures Holds(rest, r) {
      var p :| 0 <= p < |pages| && r in pages[p];
      assert r in rest[p];
    }
  }

  lemma AddedFacts(pages: Transcripts, target: nat, record: Record)
    requires Unique(pages) && target < |pages| && forall r: Record | Holds(pages, r) :: r.key != record.key
    ensures var added := pages[target := pages[target] + [record]];
            Unique(added) && forall r: Record :: Holds(added, r) <==> Holds(pages, r) || r == record
  {
    var added := pages[target := pages[target] + [record]];
    forall p, r: Record | 0 <= p < |pages| && r in pages[p] ensures r.key != record.key {
      assert Holds(pages, r);
    }
    forall r: Record | Holds(pages, r) ensures Holds(added, r) {
      var p :| 0 <= p < |pages| && r in pages[p];
      assert r in added[p];
    }
    assert record in added[target];
    forall p, q | 0 <= p < q < |pages| ensures Apart(added[p], added[q]) {
      assert Apart(pages[p], pages[q]);
    }
  }

  lemma OwnerIsFlat(pages: Transcripts, flat: map<int, Record>, key: int)
    requires Flat(pages, flat)
    ensures OwnerOf(pages, key) < |pages| <==> key in flat
    ensures key in flat ==> Find(pages[OwnerOf(pages, key)], key) == flat[key]
  {
    var owner := OwnerOf(pages, key);
    if owner < |pages| {
      assert Holds(pages, Find(pages[owner], key));
    }
    if key in flat {
      var p :| 0 <= p < |pages| && flat[key] in pages[p];
      assert Has(pages[p], key);
    }
  }

  lemma FlatWithout(pages: Transcripts, rest: Transcripts, flat: map<int, Record>, key: int)
    requires Flat(pages, flat) && forall r: Record :: Holds(rest, r) <==> Holds(pages, r) && r.key != key
    ensures Flat(rest, flat - {key})
  {
  }

  lemma FlatWith(pages: Transcripts, added: Transcripts, flat: map<int, Record>, record: Record)
    requires Flat(pages, flat) && (forall r: Record :: Holds(added, r) <==> Holds(pages, r) || r == record)
             && record.key !in flat
    ensures Flat(added, flat[record.key := record])
  {
    hide Holds;
  }

  /** One patch: the pages stand for the patched map, and still have each key once. */
  lemma PatchedIsFlat(pages: Transcripts, flat: map<int, Record>, patch: Patch, floor: int)
    requires pages != [] && Unique(pages) && Flat(pages, flat) && WellFormed(patch)
    ensures Unique(Patched(pages, patch, floor)) && Flat(Patched(pages, patch, floor), FlatPatched(flat, patch, floor))
  {
    hide Holds, Unique, Has, Find, OwnerOf, AllWithout, Flat;
    OwnerIsFlat(pages, flat, patch.key);
    RestFacts(pages, patch.key);
    var owner, rest, key := OwnerOf(pages, patch.key), AllWithout(pages, patch.key), patch.key;
    var target := if owner == |pages| then |pages| - 1 else owner;
    FlatWithout(pages, rest, flat, key);
    assert key !in flat ==> flat - {key} == flat;
    if patch.item.Some? {
      var record := patch.item.value;
      AddedFacts(rest, target, record);
      FlatWith(rest, rest[target := rest[target] + [record]], flat - {key}, record);
      assert (flat - {key})[key := record] == flat[key := record];
    }
  }

  lemma {:induction false} AllPatchedIsFlat(pages: Transcripts, flat: map<int, Record>, patches: seq<Patch>, floor: int)
    requires pages != [] && Unique(pages) && Flat(pages, flat) && forall patch <- patches :: WellFormed(patch)
    ensures Unique(AllPatched(pages, patches, floor))
            && Flat(AllPatched(pages, patches, floor), AllFlatPatched(flat, patches, floor))
  {
    hide Patched, FlatPatched, Unique, Flat;
    if patches != [] {
      var shorter, last := patches[..|patches| - 1], patches[|patches| - 1];
      AllPatchedIsFlat(pages, flat, shorter, floor);
      PatchedIsFlat(AllPatched(pages, shorter, floor), AllFlatPatched(flat, shorter, floor), last, floor);
    }
  }

  ghost predicate Ascending(records: seq<Record>) {
    forall i, j | 0 <= i < j < |records| :: records[i].key < records[j].key
  }

  lemma {:induction false} InsertFacts(records: seq<Record>, record: Record)
    requires Ascending(records) && forall r <- records :: r.key != record.key
    ensures Ascending(Insert(records, record))
    ensures forall r: Record :: r in Insert(records, record) <==> r in records || r == record
  {
    if records != [] && records[|records| - 1].key > record.key {
      var shorter, last := records[..|records| - 1], records[|records| - 1];
      assert records == shorter + [last];
      InsertFacts(shorter, record);
      assert Insert(records, record) == Insert(shorter, record) + [last];
      forall r | r in Insert(shorter, record) ensures r.key < last.key {
        if r in shorter {
          var i :| 0 <= i < |shorter| && shorter[i] == r;
          assert records[i].key < records[|records| - 1].key;
        }
      }
    } else {
      assert Insert(records, record) == records + [record];
    }
  }

  lemma {:induction false} SortedFacts(records: seq<Record>)
    requires Distinct(records)
    ensures Ascending(Sorted(records)) && forall r: Record :: r in Sorted(records) <==> r in records
  {
    if records != [] {
      var shorter, last := records[..|records| - 1], records[|records| - 1];
      assert records == shorter + [last];
      forall r | r in shorter ensures r.key != last.key {
        var i :| 0 <= i < |shorter| && shorter[i] == r;
        assert records[i].key != records[|records| - 1].key;
      }
      assert Distinct(shorter);
      SortedFacts(shorter);
      InsertFacts(Sorted(shorter), last);
    }
  }

  /** What every page is after a merge: sorted, and its items are those of its transcript. */
  ghost predicate Kept(page: Page) {
    page.transcript.Some? && Ascending(page.transcript.value) && page.items == LogItems(page.transcript.value)
  }

  lemma SamePages(a: Transcripts, b: Transcripts, flat: map<int, Record>)
    requires |a| == |b| && Unique(a) && Flat(a, flat)
    requires forall p | 0 <= p < |a| :: Distinct(b[p]) && forall r: Record :: r in b[p] <==> r in a[p]
    ensures Unique(b) && Flat(b, flat)
  {
    forall p, q | 0 <= p < q < |a| ensures Apart(b[p], b[q]) {
      assert Apart(a[p], a[q]);
    }
    forall r: Record ensures Holds(a, r) <==> Holds(b, r) {
      if Holds(a, r) {
        var p :| 0 <= p < |a| && r in a[p];
        assert r in b[p];
      }
    }
  }

  /**
   Merging patches into the pages and then flattening them is folding the patches into the flat map, under the
   same rules of revision and floor. Every page ends up sorted, with the items of its transcript.
   */
  lemma MergeRefinesMap(pages: seq<Page>, flat: map<int, Record>, changes: seq<Patch>, cursor: int,
      activity: Option<string>)
    requires pages != [] && Unique(TranscriptsOf(pages)) && Flat(TranscriptsOf(pages), flat)
    requires forall patch <- changes :: WellFormed(patch)
    ensures var merged := Merged(pages, changes, cursor, activity);
            && Unique(TranscriptsOf(merged)) && Flat(TranscriptsOf(merged), AllFlatPatched(flat, changes, Floor(pages)))
            && forall page <- merged :: Kept(page)
  {
    var before, after := TranscriptsOf(pages), AllPatched(TranscriptsOf(pages), changes, Floor(pages));
    var merged := Merged(pages, changes, cursor, activity);
    AllPatchedIsFlat(before, flat, changes, Floor(pages));
    hide AllPatched, Floor, Sorted, AllFlatPatched, Flat;
    forall p | 0 <= p < |pages|
      ensures TranscriptsOf(merged)[p] == Sorted(after[p]) && Kept(merged[p])
      ensures Distinct(Sorted(after[p])) && forall r: Record :: r in Sorted(after[p]) <==> r in after[p]
    {
      SortedFacts(after[p]);
    }
    SamePages(after, TranscriptsOf(merged), AllFlatPatched(flat, changes, Floor(pages)));
  }

  // Pages.

  /** The key is held by this page and by no other. */
  ghost predicate HeldBy(pages: Transcripts, key: int, p: nat) {
    p < |pages| && Has(pages[p], key) && forall q | 0 <= q < |pages| && q != p :: !Has(pages[q], key)
  }

  ghost predicate HeldNowhere(pages: Transcripts, key: int) {
    forall p | 0 <= p < |pages| :: !Has(pages[p], key)
  }

  lemma WithoutHas(records: seq<Record>, key: int, other: int)
    ensures Has(Without(records, key), other) <==> Has(records, other) && other != key
  {
    WithoutFacts(records, key);
    hide Without;
    if Has(records, other) && other != key {
      var r :| r in records && r.key == other;
      assert r in Without(records, key);
    }
  }

  lemma AppendedHas(records: seq<Record>, record: Record, key: int)
    ensures Has(records + [record], key) <==> Has(records, key) || record.key == key
  {
    assert record in records + [record];
    if Has(records, key) {
      var r :| r in records && r.key == key;
      assert r in records + [record];
    }
  }

  /** Which pages hold a key after a patch: those that did, but for the patch's own key. */
  lemma PatchedHas(pages: Transcripts, patch: Patch, floor: int, key: int, p: nat)
    requires pages != [] && p < |pages| && WellFormed(patch)
    ensures Has(Patched(pages, patch, floor)[p], key) <==>
            if patch.key != key then Has(pages[p], key)
            else
              var owner := OwnerOf(pages, key);
              if owner < |pages| && Find(pages[owner], key).revision > patch.revision then Has(pages[p], key)
              else
                && patch.item.Some? && (owner < |pages| || patch.item.value.endSeq >= floor)
                && p == if owner < |pages| then owner else |pages| - 1
  {
    WithoutHas(pages[p], patch.key, key);
    var rest := AllWithout(pages, patch.key);
    if patch.item.Some? {
      AppendedHas(rest[p], patch.item.value, key);
    }
    hide Has, Find, Without, OwnerOf, AllWithout;
  }

  /**
   A patch changes a record in the page that owns it, and never moves it to another. What is new goes to the last page,
   unless it is older than what is loaded.
   */
  lemma PatchStaysInPage(pages: Transcripts, patch: Patch, floor: int, key: int)
    requires pages != [] && WellFormed(patch)
    ensures forall p: nat | HeldBy(pages, key, p) ::
              if patch.key == key && patch.item.None? && Find(pages[p], key).revision <= patch.revision
              then HeldNowhere(Patched(pages, patch, floor), key)
              else HeldBy(Patched(pages, patch, floor), key, p)
    ensures HeldNowhere(pages, key) ==>
              if patch.key == key && patch.item.Some? && patch.item.value.endSeq >= floor
              then HeldBy(Patched(pages, patch, floor), key, |pages| - 1)
              else HeldNowhere(Patched(pages, patch, floor), key)
  {
    hide Patched, Find, Has;
    var owner := OwnerOf(pages, key);
    forall p | 0 <= p < |pages|
      ensures Has(Patched(pages, patch, floor)[p], key) <==>
              if patch.key != key then Has(pages[p], key)
              else if owner < |pages| && Find(pages[owner], key).revision > patch.revision then Has(pages[p], key)
              else patch.item.Some? && (owner < |pages| || patch.item.value.endSeq >= floor)
                   && p == if owner < |pages| then owner else |pages| - 1
    {
      PatchedHas(pages, patch, floor, key, p);
    }
  }

  /** As long as no patch deletes a record, it stays in the page that owns it. */
  lemma {:induction false} RecordsStayInPage(pages: Transcripts, patches: seq<Patch>, floor: int, key: int, p: nat)
    requires pages != [] && HeldBy(pages, key, p)
    requires forall patch <- patches :: WellFormed(patch) && (patch.key == key ==> patch.item.Some?)
    ensures HeldBy(AllPatched(pages, patches, floor), key, p)
  {
    hide Patched, HeldBy, HeldNowhere, Find;
    if patches != [] {
      var n := |patches| - 1;
      RecordsStayInPage(pages, patches[..n], floor, key, p);
      PatchStaysInPage(AllPatched(pages, patches[..n], floor), patches[n], floor, key);
    }
  }

  lemma SortedHas(records: seq<Record>, key: int)
    requires Distinct(records)
    ensures Has(Sorted(records), key) <==> Has(records, key)
  {
    SortedFacts(records);
    hide Sorted;
    if Has(records, key) {
      var r :| r in records && r.key == key;
      assert r in Sorted(records);
    }
  }

  /** Of the pages only the last gets the cursor, which never goes back, and the activity where there is one. */
  lemma MergedLast(pages: seq<Page>, changes: seq<Patch>, cursor: int, activity: Option<string>)
    requires pages != []
    ensures var merged := Merged(pages, changes, cursor, activity);
            var first, last := pages[|pages| - 1], merged[|pages| - 1];
            && (forall q | 0 <= q < |pages| :: merged[q].before == pages[q].before)
            && (forall q | 0 <= q < |pages| - 1 ::
                  merged[q].cursor == pages[q].cursor && merged[q].activity == pages[q].activity)
            && last.cursor >= first.cursor && last.cursor >= cursor
            && (last.cursor == first.cursor || last.cursor == cursor)
            && last.activity == if activity.None? then first.activity else activity
  {
    hide AllPatched, Floor, Sorted, LogItems;
  }

  lemma MergedTranscript(pages: seq<Page>, changes: seq<Patch>, cursor: int, activity: Option<string>, q: nat)
    requires q < |pages|
    ensures TranscriptsOf(Merged(pages, changes, cursor, activity))[q] ==
            Sorted(AllPatched(TranscriptsOf(pages), changes, Floor(pages))[q])
  {
    hide AllPatched, Floor, Sorted, LogItems;
  }

  /** A merge leaves a record that nothing deletes in the page that owns it. */
  lemma MergeStaysInPage(pages: seq<Page>, flat: map<int, Record>, changes: seq<Patch>, cursor: int,
                         activity: Option<string>, key: int, p: nat)
    requires pages != [] && Unique(TranscriptsOf(pages)) && Flat(TranscriptsOf(pages), flat)
    requires forall patch <- changes :: WellFormed(patch) && (patch.key == key ==> patch.item.Some?)
    requires HeldBy(TranscriptsOf(pages), key, p)
    ensures HeldBy(TranscriptsOf(Merged(pages, changes, cursor, activity)), key, p)
  {
    var before, floor := TranscriptsOf(pages), Floor(pages);
    var after, merged := AllPatched(before, changes, floor), Merged(pages, changes, cursor, activity);
    hide AllPatched, Floor, Sorted, AllFlatPatched, Flat, Has, LogItems, Merged;
    AllPatchedIsFlat(before, flat, changes, floor);
    RecordsStayInPage(before, changes, floor, key, p);
    forall q | 0 <= q < |pages| ensures Has(TranscriptsOf(merged)[q], key) <==> Has(after[q], key) {
      MergedTranscript(pages, changes, cursor, activity, q);
      SortedHas(after[q], key);
    }
  }

  // Revisions.

  /** The flat map after the first n patches. */
  function FlatAt(flat: map<int, Record>, patches: seq<Patch>, floor: int, n: nat): map<int, Record>
    requires n <= |patches|
  {
    AllFlatPatched(flat, patches[..n], floor)
  }

  lemma FlatNext(flat: map<int, Record>, patches: seq<Patch>, floor: int, n: nat)
    requires n < |patches|
    ensures FlatAt(flat, patches, floor, n + 1) == FlatPatched(FlatAt(flat, patches, floor, n), patches[n], floor)
  {
    assert patches[..n + 1][..n] == patches[..n];
  }

  /** No record of the key is older than one held at an earlier moment. */
  ghost predicate NeverOlder(flat: map<int, Record>, patches: seq<Patch>, floor: int, key: int) {
    forall m, n | 0 <= m <= n <= |patches| && key in FlatAt(flat, patches, floor, m)
      && key in FlatAt(flat, patches, floor, n) ::
      FlatAt(flat, patches, floor, m)[key].revision <= FlatAt(flat, patches, floor, n)[key].revision
  }

  /** The revision of the record that was last held under the key. */
  function LastHeld(flat: map<int, Record>, patches: seq<Patch>, floor: int, key: int, n: nat): Option<int>
    requires n <= |patches|
  {
    if key in FlatAt(flat, patches, floor, n) then Some(FlatAt(flat, patches, floor, n)[key].revision)
    else if n == 0 then None else LastHeld(flat, patches, floor, key, n - 1)
  }

  /** The patch brings the key back, or in for the first time. */
  predicate Revives(flat: map<int, Record>, patches: seq<Patch>, floor: int, key: int, n: nat)
    requires n < |patches|
  {
    patches[n].key == key && key !in FlatAt(flat, patches, floor, n) && key in FlatAt(flat, patches, floor, n + 1)
  }

  /** A patch that brings a key back is as new as what was last held under it. */
  ghost predicate RevivesNewer(flat: map<int, Record>, patches: seq<Patch>, floor: int, key: int) {
    forall n | 0 <= n < |patches| && Revives(flat, patches, floor, key, n)
      && LastHeld(flat, patches, floor, key, n).Some? ::
      LastHeld(flat, patches, floor, key, n).value <= patches[n].revision
  }

  lemma {:induction false} HeldBelow(flat: map<int, Record>, patches: seq<Patch>, floor: int, key: int, m: nat, n: nat)
    requires m <= n <= |patches| && (forall patch <- patches :: WellFormed(patch))
             && RevivesNewer(flat, patches, floor, key)
    requires key in FlatAt(flat, patches, floor, m)
    ensures var last := LastHeld(flat, patches, floor, key, n);
            last.Some? && FlatAt(flat, patches, floor, m)[key].revision <= last.value
  {
    hide FlatAt;
    if m < n {
      HeldBelow(flat, patches, floor, key, m, n - 1);
      FlatNext(flat, patches, floor, n - 1);
      assert patches[n - 1] in patches;
      assert Revives(flat, patches, floor, key, n - 1) <==>
             key !in FlatAt(flat, patches, floor, n - 1) && key in FlatAt(flat, patches, floor, n);
    }
  }

  lemma {:induction false} LastWasHeld(flat: map<int, Record>, patches: seq<Patch>, floor: int, key: int, n: nat)
      returns (m: nat)
    requires n <= |patches| && LastHeld(flat, patches, floor, key, n).Some?
    ensures m <= n && key in FlatAt(flat, patches, floor, m)
    ensures FlatAt(flat, patches, floor, m)[key].revision == LastHeld(flat, patches, floor, key, n).value
  {
    hide FlatAt;
    if key in FlatAt(flat, patches, floor, n) {
      m := n;
    } else {
      m := LastWasHeld(flat, patches, floor, key, n - 1);
    }
  }

  /**
   Between any two moments at which a key is held its record gets no older, if and only if no patch brings it back
   older.
   */
  lemma RevisionsNeverDecrease(flat: map<int, Record>, patches: seq<Patch>, floor: int, key: int)
    requires forall patch <- patches :: WellFormed(patch)
    ensures NeverOlder(flat, patches, floor, key) <==> RevivesNewer(flat, patches, floor, key)
  {
    hide FlatAt;
    if RevivesNewer(flat, patches, floor, key) {
      forall m: nat, n: nat | m <= n <= |patches| && key in FlatAt(flat, patches, floor, m)
        && key in FlatAt(flat, patches, floor, n)
        ensures FlatAt(flat, patches, floor, m)[key].revision <= FlatAt(flat, patches, floor, n)[key].revision
      {
        HeldBelow(flat, patches, floor, key, m, n);
      }
    }
    if NeverOlder(flat, patches, floor, key) {
      forall n: nat | n < |patches| && Revives(flat, patches, floor, key, n)
        && LastHeld(flat, patches, floor, key, n).Some?
        ensures LastHeld(flat, patches, floor, key, n).value <= patches[n].revision
      {
        var m := LastWasHeld(flat, patches, floor, key, n);
        FlatNext(flat, patches, floor, n);
        assert patches[n] in patches;
      }
    }
  }

  /** A deletion is followed by no older record of its key. Other patches may come in any order. */
  ghost predicate DeletionsLast(patches: seq<Patch>, key: int) {
    forall i, j | 0 <= i < j < |patches| && patches[i].key == key && patches[j].key == key && patches[i].item.None?
      && patches[j].item.Some? ::
      patches[i].revision <= patches[j].revision
  }

  lemma {:induction false} DeletedBy(flat: map<int, Record>, patches: seq<Patch>, floor: int, key: int, n: nat)
      returns (i: nat)
    requires n <= |patches| && key !in FlatAt(flat, patches, floor, n) && LastHeld(flat, patches, floor, key, n).Some?
    ensures i < n && patches[i].key == key && patches[i].item.None?
    ensures LastHeld(flat, patches, floor, key, n).value <= patches[i].revision
  {
    hide FlatAt;
    FlatNext(flat, patches, floor, n - 1);
    if key in FlatAt(flat, patches, floor, n - 1) {
      i := n - 1;
    } else {
      i := DeletedBy(flat, patches, floor, key, n - 1);
    }
  }

  /** So the order of revisions matters for deletions alone. */
  lemma DeletionsDecide(flat: map<int, Record>, patches: seq<Patch>, floor: int, key: int)
    requires (forall patch <- patches :: WellFormed(patch)) && DeletionsLast(patches, key)
    ensures NeverOlder(flat, patches, floor, key)
  {
    RevisionsNeverDecrease(flat, patches, floor, key);
    hide FlatAt, NeverOlder;
    forall n: nat | n < |patches| && Revives(flat, patches, floor, key, n)
      && LastHeld(flat, patches, floor, key, n).Some?
      ensures LastHeld(flat, patches, floor, key, n).value <= patches[n].revision
    {
      var i := DeletedBy(flat, patches, floor, key, n);
      FlatNext(flat, patches, floor, n);
    }
  }

  /** In one instance a record that was deleted comes back older, because deletions leave nothing behind. */
  lemma ReorderedPatchesRevert()
    ensures var flat := map[1 := Record(1, 1, 5, [])];
            var patches := [Patch(1, 6, None), Patch(1, 4, Some(Record(1, 1, 4, [])))];
            && (forall patch <- patches :: WellFormed(patch))
            && AllFlatPatched(flat, patches, 0) == map[1 := Record(1, 1, 4, [])] && !NeverOlder(flat, patches, 0, 1)
  {
    var flat := map[1 := Record(1, 1, 5, [])];
    var patches := [Patch(1, 6, None), Patch(1, 4, Some(Record(1, 1, 4, [])))];
    assert patches[..1] == [patches[0]] && [patches[0]][..0] == [];
    assert AllFlatPatched(flat, [patches[0]], 0) == map[];
    assert patches[..0] == [] && patches[..2] == patches;
    assert 1 in FlatAt(flat, patches, 0, 0) && FlatAt(flat, patches, 0, 0)[1].revision == 5;
    assert 1 in FlatAt(flat, patches, 0, 2) && FlatAt(flat, patches, 0, 2)[1].revision == 4;
  }

  // What a reader retains of pages whose keys are unique is the flat map.

  lemma {:induction false} NewestAdds(kept: map<int, Record>, records: seq<Record>, key: int)
    requires Distinct(records) && forall r <- records :: r.key !in kept
    ensures key in Newest(kept, records) <==> key in kept || Has(records, key)
    ensures key in kept ==> Newest(kept, records)[key] == kept[key]
    ensures forall r <- records | r.key == key :: key in Newest(kept, records) && Newest(kept, records)[key] == r
  {
    if records != [] {
      var shorter, last := records[..|records| - 1], records[|records| - 1];
      assert records == shorter + [last];
      forall r | r in shorter ensures r.key != last.key {
        var i :| 0 <= i < |shorter| && shorter[i] == r;
        assert records[i].key != records[|records| - 1].key;
      }
      assert Distinct(shorter);
      NewestAdds(kept, shorter, key);
      NewestAdds(kept, shorter, last.key);
    }
  }

  lemma {:induction false} NewestIsFlat(pages: Transcripts)
    requires Unique(pages)
    ensures Flat(pages, NewestOf(pages))
  {
    if pages != [] {
      var shorter, last := pages[..|pages| - 1], pages[|pages| - 1];
      assert Unique(shorter) by {
        forall p, q | 0 <= p < q < |shorter| ensures Apart(shorter[p], shorter[q]) {
          assert Apart(pages[p], pages[q]);
        }
      }
      NewestIsFlat(shorter);
      var kept := NewestOf(shorter);
      forall key | key in kept ensures forall r <- last :: r.key != key {
        var p :| 0 <= p < |shorter| && kept[key] in shorter[p];
        assert Apart(pages[p], pages[|pages| - 1]);
      }
      FlatMore(shorter, last, kept);
      assert pages == shorter + [last];
    }
  }

  lemma FlatMore(pages: Transcripts, last: seq<Record>, kept: map<int, Record>)
    requires Flat(pages, kept) && Distinct(last) && forall r <- last :: r.key !in kept
    ensures Flat(pages + [last], Newest(kept, last))
  {
    var all, flat := pages + [last], Newest(kept, last);
    forall key ensures key in flat ==> flat[key].key == key && Holds(all, flat[key]) {
      NewestAdds(kept, last, key);
      if key in kept {
        var p :| 0 <= p < |pages| && kept[key] in pages[p];
        assert kept[key] in all[p];
      } else if key in flat {
        var r :| r in last && r.key == key;
        assert r in all[|pages|];
      }
    }
    forall r: Record | Holds(all, r) ensures r.key in flat && flat[r.key] == r {
      NewestAdds(kept, last, r.key);
      var p :| 0 <= p < |all| && r in all[p];
      if p < |pages| {
        assert Holds(pages, r);
      }
    }
  }

  /** Reading the store after a merge gives the patched flat map of what it gave before. */
  lemma RetainedFollowsPatches(pages: seq<Page>, changes: seq<Patch>, cursor: int, activity: Option<string>)
    requires pages != [] && Unique(TranscriptsOf(pages)) && forall patch <- changes :: WellFormed(patch)
    ensures NewestOf(TranscriptsOf(Merged(pages, changes, cursor, activity))) ==
            AllFlatPatched(NewestOf(TranscriptsOf(pages)), changes, Floor(pages))
  {
    var flat := NewestOf(TranscriptsOf(pages));
    NewestIsFlat(TranscriptsOf(pages));
    MergeRefinesMap(pages, flat, changes, cursor, activity);
    var merged := TranscriptsOf(Merged(pages, changes, cursor, activity));
    NewestIsFlat(merged);
    FlatIsOne(merged, NewestOf(merged), AllFlatPatched(flat, changes, Floor(pages)));
  }

  lemma FlatIsOne(pages: Transcripts, a: map<int, Record>, b: map<int, Record>)
    requires Flat(pages, a) && Flat(pages, b)
    ensures a == b
  {
    forall key | key in a ensures key in b && b[key] == a[key] {
      assert Holds(pages, a[key]);
    }
    forall key | key in b ensures key in a {
      assert Holds(pages, b[key]);
    }
    assert a.Keys == b.Keys;
  }

  lemma {:induction false} LeastOfFacts(records: seq<Record>, least: Option<int>)
    ensures var all := LeastOf(records, least);
            && (forall r <- records :: all.Some? && all.value <= r.key)
            && (least.Some? ==> all.Some? && all.value <= least.value)
            && (all.Some? ==> all == least || Has(records, all.value))
  {
    if records != [] {
      var shorter, last := records[..|records| - 1], records[|records| - 1];
      assert records == shorter + [last];
      LeastOfFacts(shorter, least);
      assert last in records;
    }
  }

  /** The floor is the least key that is held; nothing held, it is where the first page begins. */
  lemma {:induction false} FloorIsLeast(pages: Transcripts)
    ensures var least := LeastKey(pages);
            && (forall r: Record | Holds(pages, r) :: least.Some? && least.value <= r.key)
            && (least.Some? ==> exists r: Record :: Holds(pages, r) && r.key == least.value)
  {
    if pages != [] {
      var shorter, last := pages[..|pages| - 1], pages[|pages| - 1];
      assert pages == shorter + [last];
      FloorIsLeast(shorter);
      LeastOfFacts(last, LeastKey(shorter));
      var least := LeastKey(pages);
      forall r: Record | Holds(pages, r) ensures Holds(shorter, r) || r in last {
      }
      forall r: Record | Holds(shorter, r) || r in last ensures Holds(pages, r) {
        if Holds(shorter, r) {
          var p :| 0 <= p < |shorter| && r in shorter[p];
          assert r in pages[p];
        } else {
          assert r in pages[|pages| - 1];
        }
      }
      if least.Some? && least != LeastKey(shorter) {
        var r :| r in last && r.key == least.value;
        assert Holds(pages, r);
      }
    }
  }
}
