/** The two list endpoints built on keyset pages: play history and the activity feed.  Both
    take one page of rows, look the related objects up in bulk, and skip rows whose objects
    are gone; the next cursor is taken before anything is skipped. */
module Listings {
  import opened Wrappers
  import opened Pagination

  datatype Song = Song(title: string)
  datatype User = User(name: string)
  datatype Playlist = Playlist(name: string)

  datatype HistoryEntry = HistoryEntry(playedAt: int, song: Song)

  datatype ActivityKind = SongPlayed | PlaylistCreated | UnknownKind

  datatype Activity = Activity(user: nat, kind: ActivityKind, song: Option<nat>, playlist: Option<nat>)

  datatype FeedEntry = FeedEntry(kind: ActivityKind, createdAt: int, user: User, song: Option<Song>,
                                 playlist: Option<Playlist>)

  /** What a call answers: the entries of one page and where the next one begins. */
  datatype Answer<E> = Answer(entries: seq<E>, next: Option<Key>)

  /** One table of rows, which of them can be hydrated, and what is told of those. */
  datatype View<!T, !E> = View(table: Snapshot<T>, tell: Row<T> --> E)

  ghost predicate CanTell<T(!new), E>(v: View<T, E>) {
    forall row: Row<T> :: v.table.visible(row.body) ==> v.tell.requires(row)
  }

  function Told<T, E>(rows: seq<Row<T>>, tell: Row<T> --> E): seq<E>
    requires forall r :: r in rows ==> tell.requires(r)
  {
    seq(|rows|, i requires 0 <= i < |rows| => tell(rows[i]))
  }

  lemma {:induction false} KeptIsVisible<T>(rows: seq<Row<T>>, visible: T -> bool)
    ensures forall r :: r in Kept(rows, visible) ==> visible(r.body)
  {
    if rows != [] {
      KeptIsVisible(rows[1..], visible);
    }
  }

  /** The entries are exactly the rows of the page that can be hydrated, in page order, and the
      cursor is that of the page whatever was skipped. */
  function AnswerOf<T(!new), E>(v: View<T, E>, cursor: Option<Key>, offset: nat, limit: nat): Answer<E>
    requires 1 <= limit && CanTell(v)
  {
    var page := Requested(v.table.rows, cursor, offset, limit);
    KeptIsVisible(page.rows, v.table.visible);
    Answer(Told(Kept(page.rows, v.table.visible), v.tell), page.next)
  }

  function Skip<T>(rows: seq<T>, offset: nat): seq<T> {
    if offset <= |rows| then rows[offset..] else []
  }

  /** The page a request asks for: below its cursor, or from its offset when it has none. */
  function Requested<T>(rows: seq<Row<T>>, cursor: Option<Key>, offset: nat, limit: nat): Page<T>
    requires 1 <= limit
  {
    PageOf(if cursor.Some? then rows else Skip(rows, offset), cursor, limit)
  }

  method FetchPage<T>(rows: seq<Row<T>>, cursor: Option<Key>, offset: nat, limit: nat) returns (page: Page<T>)
    requires 1 <= limit
    ensures page == Requested(rows, cursor, offset, limit)
  {
    var fetched: seq<Row<T>>;
    if cursor.Some? {
      fetched := Take(After(rows, cursor), limit + 1);
    } else {
      fetched := Take(Skip(rows, offset), limit + 1);
      AllBelow(Skip(rows, offset), cursor);
    }
    var hasMore := limit < |fetched|;
    if hasMore {
      fetched := fetched[..limit];
    }
    var next := None;
    if hasMore && 0 < |fetched| {
      next := Some(fetched[|fetched| - 1].key);
    }
    page := Page(fetched, next);
  }

  /** The page of an offset holds the rows from there up to the limit, and its cursor, if there are
      more rows, is the last of them. */
  lemma OffsetPage<T>(rows: seq<Row<T>>, offset: nat, limit: nat)
    requires 1 <= limit
    ensures
      var page := Requested(rows, None, offset, limit);
      if |rows| <= offset then page == Page([], None)
      else if |rows| <= offset + limit then page == Page(rows[offset..], None)
      else page == Page(rows[offset..offset + limit], Some(rows[offset + limit - 1].key))
  {
    var cursor: Option<Key> := None;
    AllBelow(Skip(rows, offset), cursor);
    if offset + limit < |rows| {
      assert rows[offset..][..limit + 1][..limit] == rows[offset..offset + limit];
    }
  }

  /** FindByIDs, and the map the callers build from its answer. */
  method LookUp<T>(table: map<nat, T>, ids: seq<nat>) returns (byId: map<nat, T>)
    ensures byId == map id | id in ids && id in table :: table[id]
  {
    byId := map[];
    for i := 0 to |ids|
      invariant byId == map id | id in ids[..i] && id in table :: table[id]
    {
      assert ids[..i + 1] == ids[..i] + [ids[i]];
      if ids[i] in table {
        byId := byId[ids[i] := table[ids[i]]];
      }
    }
    assert ids[..|ids|] == ids;
  }

  // ---- history -------------------------------------------------------------------------------

  function TellHistory(songs: map<nat, Song>): Row<nat> --> HistoryEntry {
    (row: Row<nat>) requires row.body in songs => HistoryEntry(row.key.time, songs[row.body])
  }

  function HistoryView(rows: seq<Row<nat>>, songs: map<nat, Song>): View<nat, HistoryEntry> {
    View(Snapshot(rows, HasSong(songs)), TellHistory(songs))
  }

  function HasSong(songs: map<nat, Song>): nat -> bool {
    id => id in songs
  }

  lemma {:induction false} KeptPush<T>(rows: seq<Row<T>>, row: Row<T>, visible: T -> bool)
    ensures Kept(rows + [row], visible) == Kept(rows, visible) + if visible(row.body) then [row] else []
  {
    KeptConcat(rows, [row], visible);
  }

  lemma HistoryPush(rows: seq<Row<nat>>, row: Row<nat>, songs: map<nat, Song>)
    requires row.body in songs && forall r :: r in rows ==> r.body in songs
    ensures Told(rows + [row], TellHistory(songs))
         == Told(rows, TellHistory(songs)) + [HistoryEntry(row.key.time, songs[row.body])]
  {
  }

  /** The songs of the rows in one query, then the rows in their order. */
  method HydrateHistory(rows: seq<Row<nat>>, songs: map<nat, Song>) returns (entries: seq<HistoryEntry>)
    ensures
      var kept := Kept(rows, HasSong(songs));
      (forall r :: r in kept ==> r.body in songs) && entries == Told(kept, TellHistory(songs))
  {
    ghost var visible := HasSong(songs);
    entries := [];
    var ids: seq<nat> := [];
    for i := 0 to |rows|
      invariant |ids| == i && forall k :: 0 <= k < i ==> ids[k] == rows[k].body
    {
      ids := ids + [rows[i].body];
    }
    var byId := LookUp(songs, ids);
    for i := 0 to |rows|
      invariant forall r :: r in Kept(rows[..i], visible) ==> r.body in songs
      invariant entries == Told(Kept(rows[..i], visible), TellHistory(songs))
    {
      assert rows[..i + 1] == rows[..i] + [rows[i]];
      KeptPush(rows[..i], rows[i], visible);
      assert ids[i] in ids;
      if rows[i].body in byId {
        HistoryPush(Kept(rows[..i], visible), rows[i], songs);
        entries := entries + [HistoryEntry(rows[i].key.time, byId[rows[i].body])];
      }
    }
    assert rows[..|rows|] == rows;
  }

  /** The rows of the page whose song still exists. */
  method GetHistory(rows: seq<Row<nat>>, songs: map<nat, Song>, cursor: Option<Key>, offset: nat, limit: nat)
    returns (entries: seq<HistoryEntry>, next: Option<Key>)
    requires 1 <= limit
    ensures
      && CanTell(HistoryView(rows, songs))
      && Answer(entries, next) == AnswerOf(HistoryView(rows, songs), cursor, offset, limit)
  {
    var page := FetchPage(rows, cursor, offset, limit);
    next := page.next;
    if |page.rows| == 0 {
      return [], next;
    }
    entries := HydrateHistory(page.rows, songs);
  }

  // ---- feed ----------------------------------------------------------------------------------

  predicate Hydratable(a: Activity, users: map<nat, User>, songs: map<nat, Song>, playlists: map<nat, Playlist>) {
    && a.user in users
    && match a.kind
       case SongPlayed => a.song.Some? && a.song.value in songs
       case PlaylistCreated => a.playlist.Some? && a.playlist.value in playlists
       case UnknownKind => false
  }

  function FeedEntryOf(row: Row<Activity>, users: map<nat, User>, songs: map<nat, Song>,
                       playlists: map<nat, Playlist>): FeedEntry
    requires Hydratable(row.body, users, songs, playlists)
  {
    var a := row.body;
    FeedEntry(a.kind, row.key.time, users[a.user],
              if a.kind.SongPlayed? then Some(songs[a.song.value]) else None,
              if a.kind.PlaylistCreated? then Some(playlists[a.playlist.value]) else None)
  }

  function InFeed(users: map<nat, User>, songs: map<nat, Song>, playlists: map<nat, Playlist>): Activity -> bool {
    a => Hydratable(a, users, songs, playlists)
  }

  function TellFeed(users: map<nat, User>, songs: map<nat, Song>, playlists: map<nat, Playlist>)
    : Row<Activity> --> FeedEntry
  {
    (row: Row<Activity>) requires Hydratable(row.body, users, songs, playlists) =>
      FeedEntryOf(row, users, songs, playlists)
  }

  function FeedView(rows: seq<Row<Activity>>, users: map<nat, User>, songs: map<nat, Song>,
                    playlists: map<nat, Playlist>): View<Activity, FeedEntry> {
    View(Snapshot(rows, InFeed(users, songs, playlists)), TellFeed(users, songs, playlists))
  }

  /** The ids to look up, each once, in order of first appearance. */
  method CollectIds(rows: seq<Row<Activity>>) returns (userIds: seq<nat>, songIds: seq<nat>, playlistIds: seq<nat>)
    ensures forall r :: r in rows ==>
      && r.body.user in userIds
      && (r.body.song.Some? ==> r.body.song.value in songIds)
      && (r.body.playlist.Some? ==> r.body.playlist.value in playlistIds)
    ensures forall i, j :: 0 <= i < j < |userIds| ==> userIds[i] != userIds[j]
    ensures forall i, j :: 0 <= i < j < |songIds| ==> songIds[i] != songIds[j]
    ensures forall i, j :: 0 <= i < j < |playlistIds| ==> playlistIds[i] != playlistIds[j]
  {
    userIds, songIds, playlistIds := [], [], [];
    var seenUsers, seenSongs, seenPlaylists: set<nat> := {}, {}, {};
    for i := 0 to |rows|
      invariant forall k :: k in seenUsers <==> k in userIds
      invariant forall k :: k in seenSongs <==> k in songIds
      invariant forall k :: k in seenPlaylists <==> k in playlistIds
      invariant forall i, j :: 0 <= i < j < |userIds| ==> userIds[i] != userIds[j]
      invariant forall i, j :: 0 <= i < j < |songIds| ==> songIds[i] != songIds[j]
      invariant forall i, j :: 0 <= i < j < |playlistIds| ==> playlistIds[i] != playlistIds[j]
      invariant forall k :: 0 <= k < i ==>
        && rows[k].body.user in userIds
        && (rows[k].body.song.Some? ==> rows[k].body.song.value in songIds)
        && (rows[k].body.playlist.Some? ==> rows[k].body.playlist.value in playlistIds)
    {
      var a := rows[i].body;
      if a.user !in seenUsers {
        seenUsers := seenUsers + {a.user};
        userIds := userIds + [a.user];
      }
      if a.song.Some? && a.song.value !in seenSongs {
        seenSongs := seenSongs + {a.song.value};
        songIds := songIds + [a.song.value];
      }
      if a.playlist.Some? && a.playlist.value !in seenPlaylists {
        seenPlaylists := seenPlaylists + {a.playlist.value};
        playlistIds := playlistIds + [a.playlist.value];
      }
    }
  }

  lemma FeedPush(rows: seq<Row<Activity>>, row: Row<Activity>, users: map<nat, User>, songs: map<nat, Song>,
                 playlists: map<nat, Playlist>)
    requires Hydratable(row.body, users, songs, playlists)
    requires forall r :: r in rows ==> Hydratable(r.body, users, songs, playlists)
    ensures Told(rows + [row], TellFeed(users, songs, playlists))
         == Told(rows, TellFeed(users, songs, playlists)) + [FeedEntryOf(row, users, songs, playlists)]
  {
  }

  /** One more row of a page. */
  lemma FeedStep(rows: seq<Row<Activity>>, i: nat, users: map<nat, User>, songs: map<nat, Song>,
                 playlists: map<nat, Playlist>)
    requires i < |rows|
    ensures
      var visible, tell := InFeed(users, songs, playlists), TellFeed(users, songs, playlists);
      && (forall r :: r in Kept(rows[..i + 1], visible) ==> Hydratable(r.body, users, songs, playlists))
      && (forall r :: r in Kept(rows[..i], visible) ==> Hydratable(r.body, users, songs, playlists))
      && Told(Kept(rows[..i + 1], visible), tell)
         == Told(Kept(rows[..i], visible), tell)
            + if Hydratable(rows[i].body, users, songs, playlists)
              then [FeedEntryOf(rows[i], users, songs, playlists)] else []
  {
    var visible := InFeed(users, songs, playlists);
    KeptIsVisible(rows[..i], visible);
    KeptIsVisible(rows[..i + 1], visible);
    assert rows[..i + 1] == rows[..i] + [rows[i]];
    KeptPush(rows[..i], rows[i], visible);
    if Hydratable(rows[i].body, users, songs, playlists) {
      FeedPush(Kept(rows[..i], visible), rows[i], users, songs, playlists);
    }
  }

  /** Looking up what the rows mention is as good as having the whole tables. */
  lemma LookedUp(a: Activity, users: map<nat, User>, songs: map<nat, Song>, playlists: map<nat, Playlist>,
                 userIds: seq<nat>, songIds: seq<nat>, playlistIds: seq<nat>)
    requires a.user in userIds
    requires (a.song.Some? ==> a.song.value in songIds) && (a.playlist.Some? ==> a.playlist.value in playlistIds)
    ensures
      var us := map id | id in userIds && id in users :: users[id];
      var ss := map id | id in songIds && id in songs :: songs[id];
      var ps := map id | id in playlistIds && id in playlists :: playlists[id];
      && Hydratable(a, us, ss, ps) == Hydratable(a, users, songs, playlists)
      && forall key :: Hydratable(a, users, songs, playlists) ==>
           FeedEntryOf(Row(key, a), us, ss, ps) == FeedEntryOf(Row(key, a), users, songs, playlists)
  {
  }

  method HydrateFeed(rows: seq<Row<Activity>>, users: map<nat, User>, songs: map<nat, Song>,
                     playlists: map<nat, Playlist>)
    returns (entries: seq<FeedEntry>)
    ensures
      var kept := Kept(rows, InFeed(users, songs, playlists));
      (forall r :: r in kept ==> Hydratable(r.body, users, songs, playlists))
      && entries == Told(kept, TellFeed(users, songs, playlists))
  {
    ghost var visible := InFeed(users, songs, playlists);
    var userIds, songIds, playlistIds := CollectIds(rows);
    var usersById := LookUp(users, userIds);
    var songsById := LookUp(songs, songIds);
    var playlistsById := LookUp(playlists, playlistIds);
    entries := [];
    for i := 0 to |rows|
      invariant forall r :: r in Kept(rows[..i], visible) ==> Hydratable(r.body, users, songs, playlists)
      invariant entries == Told(Kept(rows[..i], visible), TellFeed(users, songs, playlists))
    {
      var row := rows[i];
      assert row in rows;
      FeedStep(rows, i, users, songs, playlists);
      LookedUp(row.body, users, songs, playlists, userIds, songIds, playlistIds);
      if Hydratable(row.body, usersById, songsById, playlistsById) {
        entries := entries + [FeedEntryOf(row, usersById, songsById, playlistsById)];
      }
    }
    assert rows[..|rows|] == rows;
  }

  /** As for history: the activities of the page whose actor and object still exist. */
  method GetFeed(rows: seq<Row<Activity>>, users: map<nat, User>, songs: map<nat, Song>, playlists: map<nat, Playlist>,
                 cursor: Option<Key>, offset: nat, limit: nat)
    returns (entries: seq<FeedEntry>, next: Option<Key>)
    requires 1 <= limit
    ensures
      && CanTell(FeedView(rows, users, songs, playlists))
      && Answer(entries, next) == AnswerOf(FeedView(rows, users, songs, playlists), cursor, offset, limit)
  {
    var page := FetchPage(rows, cursor, offset, limit);
    next := page.next;
    if |page.rows| == 0 {
      return [], next;
    }
    entries := HydrateFeed(page.rows, users, songs, playlists);
  }

  // ---- successive calls ------------------------------------------------------------------------

  /** The entries of successive calls, each with the cursor the one before answered, until one
      answers none.  The tables may differ from call to call. */
  ghost function Entries<T(!new), E>(views: seq<View<T, E>>, cursor: Option<Key>, limit: nat): seq<E>
    requires 1 <= limit && forall v :: v in views ==> CanTell(v)
    decreases |views|
  {
    if views == [] then []
    else
      var answer := AnswerOf(views[0], cursor, 0, limit);
      answer.entries + if answer.next.None? then [] else Entries(views[1..], answer.next, limit)
  }

  function Tables<T, E>(views: seq<View<T, E>>): seq<Snapshot<T>> {
    seq(|views|, i requires 0 <= i < |views| => views[i].table)
  }

  /** The entry is what one of the calls tells of this row. */
  ghost predicate Tells<T, E>(views: seq<View<T, E>>, row: Row<T>, entry: E) {
    exists v :: v in views && v.table.visible(row.body) && v.tell.requires(row) && entry == v.tell(row)
  }

  ghost predicate AllTold<T, E>(views: seq<View<T, E>>, rows: seq<Row<T>>, entries: seq<E>) {
    |entries| == |rows| && forall k :: 0 <= k < |rows| ==> Tells(views, rows[k], entries[k])
  }

  lemma FirstPageTold<T(!new), E>(views: seq<View<T, E>>, rows: seq<Row<T>>)
    requires views != [] && CanTell(views[0])
    ensures
      var kept := Kept(rows, views[0].table.visible);
      (forall r :: r in kept ==> views[0].tell.requires(r)) && AllTold(views, kept, Told(kept, views[0].tell))
  {
    var v := views[0];
    var kept := Kept(rows, v.table.visible);
    KeptIsVisible(rows, v.table.visible);
    forall k | 0 <= k < |kept| ensures Tells(views, kept[k], v.tell(kept[k])) {
      assert v in views && kept[k] in kept;
    }
  }

  /** What some of the calls tell, all of them tell; and pages follow each other. */
  lemma MoreTold<T, E>(views: seq<View<T, E>>, first: seq<Row<T>>, told: seq<E>, shown: seq<Row<T>>, entries: seq<E>)
    requires views != [] && AllTold(views, first, told) && AllTold(views[1..], shown, entries)
    ensures AllTold(views, first + shown, told + entries)
  {
    forall k | 0 <= k < |shown| ensures Tells(views, shown[k], entries[k]) {
      assert Tells(views[1..], shown[k], entries[k]);
      var w :| w in views[1..] && w.table.visible(shown[k].body) && w.tell.requires(shown[k])
        && entries[k] == w.tell(shown[k]);
      assert w in views;
    }
  }

  /** Entry by entry, what the calls answer is told of the rows that the traversal shows. */
  lemma {:induction false} EntriesOfShown<T(!new), E>(views: seq<View<T, E>>, cursor: Option<Key>, limit: nat)
    requires 1 <= limit && forall v :: v in views ==> CanTell(v)
    ensures AllTold(views, Shown(Tables(views), cursor, limit), Entries(views, cursor, limit))
    decreases |views|
  {
    if views != [] {
      var v := views[0];
      var page := PageOf(v.table.rows, cursor, limit);
      assert Tables(views)[0] == v.table && Tables(views)[1..] == Tables(views[1..]);
      FirstPageTold(views, page.rows);
      if page.next.Some? {
        EntriesOfShown(views[1..], page.next, limit);
        var kept := Kept(page.rows, v.table.visible);
        MoreTold(views, kept, Told(kept, v.tell), Shown(Tables(views[1..]), page.next, limit),
                 Entries(views[1..], page.next, limit));
      }
    }
  }

  /** A row that is there and can be hydrated at every call has exactly one entry in what the
      calls answer together: the one told of it stands at i, every other is told of another row. */
  lemma ToldExactlyOnce<T(!new), E>(views: seq<View<T, E>>, limit: nat, row: Row<T>) returns (i: nat)
    requires 1 <= limit && forall v :: v in views ==> CanTell(v) && NewestFirst(v.table.rows)
    requires forall v :: v in views ==> row in v.table.rows && v.table.visible(row.body)
    requires Pages(Tables(views), None, limit).Some?
    ensures
      var shown, entries := Shown(Tables(views), None, limit), Entries(views, None, limit);
      && |entries| == |shown| && i < |entries| && Tells(views, row, entries[i])
      && forall j :: 0 <= j < |entries| && j != i ==> shown[j].key != row.key && Tells(views, shown[j], entries[j])
  {
    EntriesOfShown(views, None, limit);
    i := ShownExactlyOnce(Tables(views), limit, row);
  }

  function Histories(tables: seq<seq<Row<nat>>>, songs: map<nat, Song>): seq<View<nat, HistoryEntry>> {
    seq(|tables|, i requires 0 <= i < |tables| => HistoryView(tables[i], songs))
  }

  lemma HistoriesTell(tables: seq<seq<Row<nat>>>, songs: map<nat, Song>)
    ensures forall v :: v in Histories(tables, songs) ==>
      CanTell(v) && v.table.rows in tables && v == HistoryView(v.table.rows, songs)
  {
    var views := Histories(tables, songs);
    forall v | v in views ensures CanTell(v) && v.table.rows in tables && v == HistoryView(v.table.rows, songs) {
      var k :| 0 <= k < |views| && views[k] == v;
    }
  }

  /** For the history: while plays come and go between the calls, a play that stays and whose
      song stays is answered once, with its own time and song. */
  lemma PlayListedOnce(tables: seq<seq<Row<nat>>>, songs: map<nat, Song>, limit: nat, play: Row<nat>)
    returns (i: nat)
    requires 1 <= limit && forall rows :: rows in tables ==> NewestFirst(rows) && play in rows
    requires play.body in songs && Pages(Tables(Histories(tables, songs)), None, limit).Some?
    ensures forall v :: v in Histories(tables, songs) ==> CanTell(v)
    ensures
      var views := Histories(tables, songs);
      var shown, entries := Shown(Tables(views), None, limit), Entries(views, None, limit);
      && |entries| == |shown| && i < |entries|
      && entries[i] == HistoryEntry(play.key.time, songs[play.body])
      && forall j :: 0 <= j < |entries| && j != i ==> shown[j].key != play.key
  {
    var views := Histories(tables, songs);
    HistoriesTell(tables, songs);
    forall v | v in views ensures NewestFirst(v.table.rows) && play in v.table.rows && v.table.visible(play.body) {
      assert v.table.rows in tables;
    }
    i := ToldExactlyOnce(views, limit, play);
  }

  function Feeds(tables: seq<seq<Row<Activity>>>, users: map<nat, User>, songs: map<nat, Song>,
                 playlists: map<nat, Playlist>): seq<View<Activity, FeedEntry>> {
    seq(|tables|, i requires 0 <= i < |tables| => FeedView(tables[i], users, songs, playlists))
  }

  lemma FeedsTell(tables: seq<seq<Row<Activity>>>, users: map<nat, User>, songs: map<nat, Song>,
                  playlists: map<nat, Playlist>)
    ensures forall v :: v in Feeds(tables, users, songs, playlists) ==>
      CanTell(v) && v.table.rows in tables && v == FeedView(v.table.rows, users, songs, playlists)
  {
    var views := Feeds(tables, users, songs, playlists);
    forall v | v in views
      ensures CanTell(v) && v.table.rows in tables && v == FeedView(v.table.rows, users, songs, playlists)
    {
      var k :| 0 <= k < |views| && views[k] == v;
    }
  }

  /** The entry of an activity, if its actor and what it is about exist. */
  predicate IsEntryOf(e: FeedEntry, row: Row<Activity>, users: map<nat, User>, songs: map<nat, Song>,
                      playlists: map<nat, Playlist>) {
    var a := row.body;
    && a.user in users && e.user == users[a.user] && e.createdAt == row.key.time && e.kind == a.kind
    && ((a.kind == SongPlayed && a.song.Some? && a.song.value in songs
         && e.song == Some(songs[a.song.value]) && e.playlist == None)
        || (a.kind == PlaylistCreated && a.playlist.Some? && a.playlist.value in playlists
            && e.song == None && e.playlist == Some(playlists[a.playlist.value])))
  }

  /** An activity that can be told: its actor exists, and so does what it is about. */
  predicate CanBeTold(a: Activity, users: map<nat, User>, songs: map<nat, Song>, playlists: map<nat, Playlist>) {
    && a.user in users
    && match a.kind
       case SongPlayed => a.song.Some? && a.song.value in songs
       case PlaylistCreated => a.playlist.Some? && a.playlist.value in playlists
       case UnknownKind => false
  }

  lemma FeedsHave(tables: seq<seq<Row<Activity>>>, users: map<nat, User>, songs: map<nat, Song>,
                  playlists: map<nat, Playlist>, row: Row<Activity>)
    requires CanBeTold(row.body, users, songs, playlists)
    requires forall rows :: rows in tables ==> NewestFirst(rows) && row in rows
    ensures forall v :: v in Feeds(tables, users, songs, playlists) ==>
      CanTell(v) && NewestFirst(v.table.rows) && row in v.table.rows && v.table.visible(row.body)
  {
    FeedsTell(tables, users, songs, playlists);
  }

  lemma ToldIsEntry(tables: seq<seq<Row<Activity>>>, users: map<nat, User>, songs: map<nat, Song>,
                    playlists: map<nat, Playlist>, row: Row<Activity>, e: FeedEntry)
    requires Tells(Feeds(tables, users, songs, playlists), row, e)
    ensures IsEntryOf(e, row, users, songs, playlists)
  {
    FeedsTell(tables, users, songs, playlists);
  }

  /** For the feed: an activity that stays, as do its actor and what it is about, is answered once,
      with its actor, its time, and its song or its playlist. */
  lemma ActivityListedOnce(tables: seq<seq<Row<Activity>>>, users: map<nat, User>, songs: map<nat, Song>,
                           playlists: map<nat, Playlist>, limit: nat, row: Row<Activity>)
    returns (i: nat)
    requires 1 <= limit && forall rows :: rows in tables ==> NewestFirst(rows) && row in rows
    requires CanBeTold(row.body, users, songs, playlists)
    requires Pages(Tables(Feeds(tables, users, songs, playlists)), None, limit).Some?
    ensures forall v :: v in Feeds(tables, users, songs, playlists) ==> CanTell(v)
    ensures
      var views := Feeds(tables, users, songs, playlists);
      var shown, entries := Shown(Tables(views), None, limit), Entries(views, None, limit);
      && |entries| == |shown| && i < |entries| && IsEntryOf(entries[i], row, users, songs, playlists)
      && forall j :: 0 <= j < |entries| && j != i ==> shown[j].key != row.key
  {
    var views := Feeds(tables, users, songs, playlists);
    FeedsHave(tables, users, songs, playlists, row);
    i := ToldExactlyOnce(views, limit, row);
    ToldIsEntry(tables, users, songs, playlists, row, Entries(views, None, limit)[i]);
  }

  /** And every entry that is answered belongs to the activity at its place in the traversal. */
  lemma EntriesAreActivities(tables: seq<seq<Row<Activity>>>, users: map<nat, User>, songs: map<nat, Song>,
                             playlists: map<nat, Playlist>, limit: nat, j: nat)
    requires 1 <= limit
    ensures forall v :: v in Feeds(tables, users, songs, playlists) ==> CanTell(v)
    ensures
      var views := Feeds(tables, users, songs, playlists);
      var shown, entries := Shown(Tables(views), None, limit), Entries(views, None, limit);
      |entries| == |shown| && (j < |entries| ==> IsEntryOf(entries[j], shown[j], users, songs, playlists))
  {
    var views := Feeds(tables, users, songs, playlists);
    FeedsTell(tables, users, songs, playlists);
    EntriesOfShown(views, None, limit);
    var shown, entries := Shown(Tables(views), None, limit), Entries(views, None, limit);
    if j < |entries| {
      ToldIsEntry(tables, users, songs, playlists, shown[j], entries[j]);
    }
  }
}
