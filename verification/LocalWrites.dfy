/** Confirmed local writes and deletions in the event cache (UpsertCachedEvent, DeleteCachedEvent of internal/storage/event_cache.go). */
module LocalWrites {
  import opened Base
  import opened Events
  import opened EventCache
  import opened SyncLease
  import opened Calendars

  /** Nothing but the rows changed. */
  predicate OnlyRows(c: Calendar, d: Calendar)
  {
    d == c.(cache := c.cache.(rows := d.cache.rows))
  }

  /**
   * A local write shows at once as a live event of its own object, among all rows and among those of the current
   * generation, beside everything that was live before; the sweep that ends this generation keeps it.
   */
  lemma LocalWriteShows(c: Calendar, e: Event, view: Option<nat>)
    requires WriteThrough(c, e).Ok? && c.sync.Some? && Watches(view, c.sync.value.generation)
    ensures var d := WriteThrough(c, e).value;
            && OnlyRows(c, d) && View(d.cache.rows, view) == View(c.cache.rows, view)[e.id := Entry(e.id, e.Plain())]
            && Live(Swept(d.cache, c.sync.value.generation)) == Live(Swept(c.cache, c.sync.value.generation))[e.id := Entry(e.id, e.Plain())]
  {
  }

  /**
   * A local deletion hides its event and no other, also after the sweep that ends this generation; it undoes a local
   * write of the event, and the tombstone stays under the object the row belonged to.
   */
  lemma LocalDeleteHides(c: Calendar, id: string, view: Option<nat>)
    requires WriteDelete(c, id).Ok? && c.sync.Some? && Watches(view, c.sync.value.generation)
    ensures var d := WriteDelete(c, id).value;
            && OnlyRows(c, d) && View(d.cache.rows, view) == View(c.cache.rows, view) - {id}
            && Live(Swept(d.cache, c.sync.value.generation)) == Live(Swept(c.cache, c.sync.value.generation)) - {id}
            && id in Swept(d.cache, c.sync.value.generation) && d.cache.rows[id].Tombstone?
            && (id in c.cache.rows ==> d.cache.rows[id].objectId == c.cache.rows[id].objectId)
  {
    BuryView(c.cache.rows, id, c.sync.value.generation, view);
    BurySwept(c.cache, id, c.sync.value.generation);
    hide View, Swept;
  }

  lemma BurySwept(cache: Cache, id: string, g: nat)
    ensures Live(Swept(cache.(rows := Bury(cache.rows, id, g)), g)) == Live(Swept(cache, g)) - {id}
    ensures id in Swept(cache.(rows := Bury(cache.rows, id, g)), g)
  {
    var before, after := Live(Swept(cache, g)), Live(Swept(cache.(rows := Bury(cache.rows, id, g)), g));
    assert after.Keys == before.Keys - {id};
  }

  /** Written and deleted, the event is gone and everything else as it was; deleted and written, it is back. */
  lemma LocalRoundTrip(c: Calendar, e: Event)
    requires WriteThrough(c, e).Ok?
    ensures var written := WriteThrough(c, e).value;
            && WriteDelete(written, e.id).Ok?
            && Live(WriteDelete(written, e.id).value.cache.rows) == Live(c.cache.rows) - {e.id}
            && WriteDelete(c, e.id).Ok?
            && WriteThrough(WriteDelete(c, e.id).value, e) == WriteThrough(c, e)
  {
    LocalWriteShows(c, e, None);
    LocalDeleteHides(WriteThrough(c, e).value, e.id, None);
    var rows, owner := c.cache.rows, if e.id in c.cache.rows then c.cache.rows[e.id].objectId else "";
    var g := c.sync.value.generation;
    assert rows[e.id := Tombstone(owner, g)][e.id := LiveRow(e.id, e.Plain(), g)] == rows[e.id := LiveRow(e.id, e.Plain(), g)];
    assert Live(rows)[e.id := Entry(e.id, e.Plain())] - {e.id} == Live(rows) - {e.id};
  }
}
