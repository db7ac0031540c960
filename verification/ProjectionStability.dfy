/** What the full projection keeps on screen: every message and every failure. */
module ProjectionStability {
  import opened ConversationItems
  import opened ConversationTrace
  import opened Subsequences
  import opened TranscriptStability

  /** The ids of rows that are no Activity. */
  function Plain(ids: seq<RowId>): seq<RowId> {
    if ids == [] then [] else Plain(ids[..|ids| - 1]) + if ids[|ids| - 1].ActivityId? then [] else [ids[|ids| - 1]]
  }

  function ProjectedIds(rows: seq<TracedRow>): seq<RowId> {
    if rows == [] then [] else ProjectedIds(rows[..|rows| - 1]) + [IdOf(rows[|rows| - 1].row)]
  }

  lemma PlainMore(ids: seq<RowId>, id: RowId)
    ensures Plain(ids + [id]) == Plain(ids) + if id.ActivityId? then [] else [id]
  {
    assert (ids + [id])[..|ids|] == ids;
  }

  lemma {:induction false} SubPlain(a: seq<RowId>, b: seq<RowId>)
    requires Sub(a, b)
    ensures Sub(Plain(a), Plain(b))
    decreases |b|
  {
    if a != [] {
      var a', x, b', y := a[..|a| - 1], a[|a| - 1], b[..|b| - 1], b[|b| - 1];
      assert a == a' + [x] && b == b' + [y];
      PlainMore(a', x);
      PlainMore(b', y);
      hide Plain;
      if x == y && Sub(a', b') {
        SubPlain(a', b');
        if x.ActivityId? {
          assert Plain(a') + [] == Plain(a') && Plain(b') + [] == Plain(b');
        } else {
          SubBoth(Plain(a'), Plain(b'), x);
        }
      } else {
        SubPlain(a, b');
        SubMore(Plain(a), Plain(b'), if y.ActivityId? then [] else [y]);
      }
    }
  }

  lemma IdsAfterRow(rows: seq<Transcript.Row>, operations: seq<Operation>, owners: map<int, nat>, n: nat)
    requires 0 < n <= |rows|
    ensures ProjectedIds(Projected(rows, operations, owners, n)) ==
            ProjectedIds(Projected(rows, operations, owners, n - 1)) +
            if rows[n - 1].Activity? && AttachedTo(operations, owners, n - 1) == [] then [] else [IdOf(rows[n - 1])]
  {
    hide AttachedTo, IdOf;
    var before := Projected(rows, operations, owners, n - 1);
    var row := TracedRow(rows[n - 1], if rows[n - 1].Activity? then AttachedTo(operations, owners, n - 1) else []);
    assert (before + [row])[..|before|] == before;
    assert before + [] == before;
  }

  lemma NothingProjected(rows: seq<Transcript.Row>, operations: seq<Operation>, owners: map<int, nat>)
    ensures Plain(ProjectedIds(Projected(rows, operations, owners, 0))) == Plain(Ids(rows[..0]))
  {
    assert Ids(rows[..0]) == [];
  }

  lemma IdsNext(rows: seq<Transcript.Row>, n: nat)
    requires 0 < n <= |rows|
    ensures Ids(rows[..n]) == Ids(rows[..n - 1]) + [IdOf(rows[n - 1])]
  {
  }

  lemma {:induction false} ProjectedPlain(rows: seq<Transcript.Row>, operations: seq<Operation>, owners: map<int, nat>,
      n: nat)
    requires n <= |rows|
    ensures Plain(ProjectedIds(Projected(rows, operations, owners, n))) == Plain(Ids(rows[..n]))
  {
    hide *;
    if n == 0 {
      NothingProjected(rows, operations, owners);
    } else {
      ProjectedPlain(rows, operations, owners, n - 1);
      IdsAfterRow(rows, operations, owners, n);
      IdsNext(rows, n);
      var ids := ProjectedIds(Projected(rows, operations, owners, n - 1));
      PlainMore(ids, IdOf(rows[n - 1]));
      PlainMore(Ids(rows[..n - 1]), IdOf(rows[n - 1]));
      ActivityIds(rows[n - 1]);
      assert Plain(Ids(rows[..n - 1])) + [] == Plain(Ids(rows[..n - 1])) && ids + [] == ids;
    }
  }

  lemma ActivityIds(row: Transcript.Row)
    ensures IdOf(row).ActivityId? <==> row.Activity?
  {
  }

  /**
   Later events hide no message and no failure from the projected conversation. Activities are another matter: see
   ProjectionLoss for exactly which of them stay.
   */
  lemma ProseStays(log: seq<Item>, more: seq<Item>, live: bool, live': bool)
    requires Ascending(log + more)
    ensures Sub(Plain(ProjectedIds(ProjectConversation(log, live))),
            Plain(ProjectedIds(ProjectConversation(log + more, live'))))
  {
    var rows, rows' := Transcript.Present(log, live).rows, Transcript.Present(log + more, live').rows;
    PrefixStability(log, more, live, live');
    hide Transcript.Present, Operations, Owners, Projected, Plain, Sub;
    SubPlain(Ids(rows), Ids(rows'));
    ProjectedPlain(rows, Operations(log, live), Owners(rows, |rows|), |rows|);
    ProjectedPlain(rows', Operations(log + more, live'), Owners(rows', |rows'|), |rows'|);
    assert rows[..|rows|] == rows && rows'[..|rows'|] == rows';
  }
}
