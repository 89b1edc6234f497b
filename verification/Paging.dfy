/** Keyset paging: the cursor codec (internal/platform/paging/cursor.go), the keyset query
    (internal/platform/database/query.go and ListByUser of the order repository) and the page
    (internal/platform/web/response/pagination_cursor.go). */
module Paging {
  import opened Common
  import opened Base64

  const BAR: Byte := 124

  type Text = seq<Byte>

  // ---- the cursor ----

  function EncodeCursor(createdAt: Text, id: Text): Text {
    Encode(createdAt + [BAR] + id)
  }

  /** strings.SplitN(s, "|", 2), for a text that holds a bar. */
  function Cut(s: Text): Option<(Text, Text)> {
    if s == [] then None
    else if s[0] == BAR then Some(([], s[1..]))
    else
      var rest := Cut(s[1..]);
      if rest.None? then None else Some(([s[0]] + rest.value.0, rest.value.1))
  }

  function DecodeCursor(cursor: Text): Result<(Text, Text)> {
    var data := Decode(cursor);
    if data.Err? then Err(BadRequest)
    else
      var parts := Cut(data.value);
      if parts.None? then Err(BadRequest) else Ok(parts.value)
  }

  lemma {:induction false} CutMeans(s: Text, a: Text, b: Text)
    ensures Cut(s) == Some((a, b)) <==> s == a + [BAR] + b && BAR !in a
    decreases |s|
  {
    if s != [] && s[0] != BAR {
      if a == [] {
        assert (a + [BAR] + b)[0] == BAR;
      } else {
        CutMeans(s[1..], a[1..], b);
        assert a == [a[0]] + a[1..];
        assert (a + [BAR] + b)[1..] == a[1..] + [BAR] + b;
        assert s == [s[0]] + s[1..];
      }
    } else if s != [] {
      assert s == [] + [BAR] + s[1..];
      assert a != [] ==> (a + [BAR] + b)[0] == a[0];
      assert a == [] ==> (a + [BAR] + b)[1..] == b;
    }
  }

  /** Decoding gives a cursor's parts back if and only if the timestamp holds no bar. */
  lemma CursorRoundTrip(createdAt: Text, id: Text)
    ensures DecodeCursor(EncodeCursor(createdAt, id)) == Ok((createdAt, id)) <==> BAR !in createdAt
  {
    DecodeEncode(createdAt + [BAR] + id);
    CutMeans(createdAt + [BAR] + id, createdAt, id);
  }

  /** ParseCursorPage's limit; `parsed` is the query parameter when it is a number. */
  function PageLimit(parsed: Option<int>): (r: nat)
    ensures 1 <= r <= 100
    ensures r == if parsed.Some? && 1 <= parsed.value <= 100 then parsed.value else 20
  {
    var limit := if parsed.Some? then parsed.value else 0;
    if limit < 1 || limit > 100 then 20 else limit
  }

  // ---- the query ----

  datatype Key = Key(at: int, id: nat)

  predicate Less(a: Key, b: Key) {
    a.at < b.at || (a.at == b.at && a.id < b.id)
  }

  /** The rows of a table by their sort key, each with its owner. */
  type Table = map<Key, nat>

  /** How timestamps and identifiers are written into a cursor, and how the database reads them. */
  datatype Format = Format(
    showTime: int -> Text,
    showId: nat -> Text,
    readTime: Text -> Option<int>,
    readId: Text -> Option<nat>)

  /** The database reads back what was written, and no timestamp is written with a bar. */
  ghost predicate Faithful(f: Format) {
    (forall t: int :: f.readTime(f.showTime(t)) == Some(t) && BAR !in f.showTime(t)) &&
    (forall id: nat :: f.readId(f.showId(id)) == Some(id))
  }

  predicate IsMax(s: set<Key>, m: Key) {
    m in s && forall k | k in s :: k == m || Less(k, m)
  }

  lemma {:induction false} HasMax(s: set<Key>) returns (m: Key)
    requires s != {}
    ensures IsMax(s, m)
  {
    m :| m in s;
    var rest := s - {m};
    assert s == rest + {m};
    if rest != {} {
      var top := HasMax(rest);
      if Less(m, top) {
        m := top;
      }
    }
  }

  ghost function Max(s: set<Key>): (m: Key)
    requires s != {}
    ensures IsMax(s, m)
  {
    assert exists m :: IsMax(s, m) by { var m := HasMax(s); }
    var m :| IsMax(s, m);
    m
  }

  /** ORDER BY created_at DESC, id DESC LIMIT n. */
  ghost function Top(s: set<Key>, n: nat): (r: seq<Key>)
    ensures |r| == if n < |s| then n else |s|
  {
    if n == 0 || s == {} then [] else [Max(s)] + Top(s - {Max(s)}, n - 1)
  }

  /** (created_at, id) < (k.at, k.id) */
  function Below(s: set<Key>, k: Key): set<Key> {
    set x | x in s && Less(x, k)
  }

  function Owned(t: Table, user: nat): set<Key> {
    set k | k in t && t[k] == user
  }

  /** The rows a cursor leaves to list; the empty cursor leaves all of the user's. */
  function Rest(f: Format, t: Table, user: nat, cursor: Text): Result<set<Key>> {
    if cursor == [] then Ok(Owned(t, user))
    else
      var parts := DecodeCursor(cursor);
      if parts.Err? then Err(BadRequest)
      else
        var at, id := f.readTime(parts.value.0), f.readId(parts.value.1);
        if at.None? || id.None? then Err(DatabaseError) else Ok(Below(Owned(t, user), Key(at.value, id.value)))
  }

  ghost function ListByUser(f: Format, t: Table, user: nat, cursor: Text, limit: nat): Result<seq<Key>> {
    var rest := Rest(f, t, user, cursor);
    if rest.Err? then Err(rest.error) else Ok(Top(rest.value, limit + 1))
  }

  // ---- the page ----

  datatype Page = Page(items: seq<Key>, next: Text, hasMore: bool)

  function Paged(f: Format, rows: seq<Key>, limit: nat): Page {
    if |rows| <= limit then Page(rows, [], false)
    else if limit == 0 then Page([], [], true)
    else Page(rows[..limit], EncodeCursor(f.showTime(rows[limit - 1].at), f.showId(rows[limit - 1].id)), true)
  }

  method CursorPage(f: Format, fetched: seq<Key>, limit: nat) returns (p: Page)
    ensures p == Paged(f, fetched, limit)
  {
    var rows := fetched;
    var hasMore := |rows| > limit;
    if hasMore {
      rows := rows[..limit];
    }
    var next := [];
    if hasMore && |rows| > 0 {
      var last := rows[|rows| - 1];
      next := EncodeCursor(f.showTime(last.at), f.showId(last.id));
    }
    return Page(rows, next, hasMore);
  }

  lemma {:induction false} CutExactly(s: Text)
    ensures Cut(s).Some? <==> BAR in s
    decreases |s|
  {
    if s != [] {
      CutExactly(s[1..]);
      assert s == [s[0]] + s[1..];
    }
  }

  /** A cursor that is not base64, or whose text holds no bar, is refused; any other that the
      database can read selects the user's rows below it, newest first, one more than a page. */
  lemma CursorExactly(f: Format, t: Table, user: nat, cursor: Text, limit: nat)
    requires cursor != []
    ensures if Decode(cursor).Err? || BAR !in Decode(cursor).value then ListByUser(f, t, user, cursor, limit) == Err(BadRequest)
            else
              DecodeCursor(cursor).Ok? &&
              var (at, id) := DecodeCursor(cursor).value;
              if f.readTime(at).None? || f.readId(id).None? then ListByUser(f, t, user, cursor, limit) == Err(DatabaseError)
              else
                var k := Key(f.readTime(at).value, f.readId(id).value);
                ListByUser(f, t, user, cursor, limit) == Ok(Top((set x | x in t && t[x] == user && Less(x, k)), limit + 1))
  {
    hide Top, Less;
    if Decode(cursor).Ok? {
      CutExactly(Decode(cursor).value);
      if BAR in Decode(cursor).value {
        var parts := DecodeCursor(cursor).value;
        if f.readTime(parts.0).Some? && f.readId(parts.1).Some? {
          var k := Key(f.readTime(parts.0).value, f.readId(parts.1).value);
          assert Below(Owned(t, user), k) == (set x | x in t && t[x] == user && Less(x, k));
        }
      }
    }
  }

  // ---- the whole listing ----

  /** Every row, newest first. */
  ghost function Listing(s: set<Key>): seq<Key> {
    Top(s, |s|)
  }

  /** The listing holds each row exactly once, in strictly descending order. */
  lemma {:induction false} ListingMeans(s: set<Key>)
    ensures forall k :: k in Listing(s) <==> k in s
    ensures forall i, j | 0 <= i < j < |Listing(s)| :: Less(Listing(s)[j], Listing(s)[i])
    decreases |s|
  {
    if s != {} {
      var rest := s - {Max(s)};
      ListingMeans(rest);
      assert Listing(s) == [Max(s)] + Listing(rest);
      forall i, j | 0 <= i < j < |Listing(s)| ensures Less(Listing(s)[j], Listing(s)[i]) {
        assert Listing(s)[j] == Listing(rest)[j - 1];
        assert Listing(rest)[j - 1] in rest;
      }
    }
  }

  lemma {:induction false} TopInside(s: set<Key>, n: nat)
    ensures forall i | 0 <= i < |Top(s, n)| :: Top(s, n)[i] in s
    decreases n
  {
    if n > 0 && s != {} {
      TopInside(s - {Max(s)}, n - 1);
    }
  }

  lemma {:induction false} TopPrefix(s: set<Key>, n: nat)
    requires n < |s|
    ensures Top(s, n + 1)[..n] == Top(s, n)
    decreases n
  {
    if n > 0 {
      TopPrefix(s - {Max(s)}, n - 1);
    }
  }

  lemma TopStep(s: set<Key>, n: nat)
    requires 1 <= n <= |s|
    ensures IsMax(s, Max(s)) && |s - {Max(s)}| == |s| - 1
    ensures Top(s, n) == [Max(s)] + Top(s - {Max(s)}, n - 1)
    ensures Listing(s) == [Max(s)] + Listing(s - {Max(s)})
    ensures Top(s - {Max(s)}, 0) == []
  {
  }

  lemma BelowSkipsMax(s: set<Key>, m: Key, k: Key)
    requires IsMax(s, m) && (k == m || Less(k, m))
    ensures Below(s, k) == Below(s - {m}, k) && m !in Below(s, k) && k !in Below(s, k)
    ensures k == m ==> Below(s, k) == s - {m}
  {
  }

  /** Cutting the listing after `n` rows leaves the listing of the rows below the last of them. */
  lemma {:induction false} ListingSplits(s: set<Key>, n: nat)
    requires 1 <= n <= |s|
    ensures Listing(s) == Top(s, n) + Listing(Below(s, Top(s, n)[n - 1]))
    ensures Below(s, Top(s, n)[n - 1]) <= s - {Max(s)}
    decreases n
  {
    hide Less, IsMax, Top, Listing;
    var m := Max(s);
    var rest := s - {m};
    var last := Top(s, n)[n - 1];
    TopStep(s, n);
    LastIsBelowMax(s, n);
    BelowSkipsMax(s, m, last);
    if n > 1 {
      ListingSplits(rest, n - 1);
      assert last == Top(rest, n - 1)[n - 2];
    }
  }

  lemma LastIsBelowMax(s: set<Key>, n: nat)
    requires 1 <= n <= |s|
    ensures var last := Top(s, n)[n - 1]; last == Max(s) || Less(last, Max(s))
  {
    TopInside(s, n);
  }

  // ---- following the cursors ----

  ghost function PageAt(f: Format, t: Table, user: nat, cursor: Text, limit: nat): Result<Page> {
    var rows := ListByUser(f, t, user, cursor, limit);
    if rows.Err? then Err(rows.error) else Ok(Paged(f, rows.value, limit))
  }

  /** A page with more behind it is full, and its cursor leaves exactly the rows below it. */
  lemma NextPage(f: Format, t: Table, user: nat, cursor: Text, limit: nat)
    requires Faithful(f) && limit >= 1 && PageAt(f, t, user, cursor, limit).Ok?
    ensures var p, rest := PageAt(f, t, user, cursor, limit).value, Rest(f, t, user, cursor).value;
            (p.hasMore <==> |rest| > limit) && (p.hasMore <==> p.next != []) &&
            (!p.hasMore ==> p.items == Listing(rest)) &&
            (p.hasMore ==>
               var left := Rest(f, t, user, p.next);
               left.Ok? && |p.items| == limit && |left.value| < |rest| && Listing(rest) == p.items + Listing(left.value))
  {
    hide Faithful, Top, Listing, Below, Rest, EncodeCursor, DecodeCursor;
    var p, rest := PageAt(f, t, user, cursor, limit).value, Rest(f, t, user, cursor).value;
    if p.hasMore {
      FullPage(f, t, user, cursor, limit);
    } else {
      TopOfFew(rest, limit + 1);
    }
  }

  /** What is left below the last row of a full page. */
  lemma FullPage(f: Format, t: Table, user: nat, cursor: Text, limit: nat)
    requires Faithful(f) && limit >= 1 && Rest(f, t, user, cursor).Ok? && |Rest(f, t, user, cursor).value| > limit
    ensures var rest := Rest(f, t, user, cursor).value;
            var p := Paged(f, Top(rest, limit + 1), limit);
            var left := Rest(f, t, user, p.next);
            && p.next != [] && |p.items| == limit
            && left.Ok? && |left.value| < |rest| && Listing(rest) == p.items + Listing(left.value)
  {
    hide Faithful, Listing, Below, Top, Owned, EncodeCursor, DecodeCursor;
    var rest := Rest(f, t, user, cursor).value;
    var last := Top(rest, limit + 1)[limit - 1];
    TopInside(rest, limit + 1);
    TopPrefix(rest, limit);
    ListingSplits(rest, limit);
    RestOfRest(f, t, user, cursor, last);
    BelowShrinks(rest, last);
    RestOfShown(f, t, user, last);
  }

  /** The cursor of a row leaves the rows below it. */
  lemma RestOfShown(f: Format, t: Table, user: nat, last: Key)
    requires Faithful(f)
    ensures var cursor := EncodeCursor(f.showTime(last.at), f.showId(last.id));
            cursor != [] && Rest(f, t, user, cursor) == Ok(Below(Owned(t, user), last))
  {
    hide Below, Owned;
    CursorRoundTrip(f.showTime(last.at), f.showId(last.id));
    assert f.showTime(last.at) + [BAR] + f.showId(last.id) != [];
  }

  lemma {:induction false} TopOfFew(s: set<Key>, n: nat)
    requires n >= |s|
    ensures Top(s, n) == Listing(s)
    decreases n
  {
    if s != {} {
      TopOfFew(s - {Max(s)}, n - 1);
      TopOfFew(s - {Max(s)}, |s| - 1);
    }
  }

  lemma BelowShrinks(s: set<Key>, k: Key)
    requires k in s
    ensures |Below(s, k)| < |s|
  {
    assert k !in Below(s, k);
    Shrinks(Below(s, k), s);
  }

  lemma Shrinks(a: set<Key>, b: set<Key>)
    requires a < b
    ensures |a| < |b|
  {
    assert |b| == |a| + |b - a| by {
      assert b == a + (b - a);
    }
    assert b - a != {};
  }

  /** The rows below a listed row are the same whichever cursor listed it. */
  lemma RestOfRest(f: Format, t: Table, user: nat, cursor: Text, last: Key)
    requires Rest(f, t, user, cursor).Ok? && last in Rest(f, t, user, cursor).value
    ensures Below(Owned(t, user), last) == Below(Rest(f, t, user, cursor).value, last)
  {
  }

  /** All pages from `cursor` on, each asked for with the cursor the one before it returned. */
  ghost function Follow(f: Format, t: Table, user: nat, cursor: Text, limit: nat): Result<seq<Key>>
    requires Faithful(f) && limit >= 1
    decreases if Rest(f, t, user, cursor).Ok? then |Rest(f, t, user, cursor).value| else 0
  {
    var p := PageAt(f, t, user, cursor, limit);
    if p.Err? then Err(p.error)
    else if !p.value.hasMore then Ok(p.value.items)
    else
      NextPage(f, t, user, cursor, limit);
      var more := Follow(f, t, user, p.value.next, limit);
      if more.Err? then more else Ok(p.value.items + more.value)
  }

  /** Following the cursors ends, and yields exactly the listing of what the first cursor leaves. */
  lemma {:induction false} FollowLists(f: Format, t: Table, user: nat, cursor: Text, limit: nat)
    requires Faithful(f) && limit >= 1
    ensures var rest := Rest(f, t, user, cursor);
            Follow(f, t, user, cursor, limit) == if rest.Ok? then Ok(Listing(rest.value)) else Err(rest.error)
    decreases if Rest(f, t, user, cursor).Ok? then |Rest(f, t, user, cursor).value| else 0
  {
    if Rest(f, t, user, cursor).Ok? {
      NextPage(f, t, user, cursor, limit);
      var p := PageAt(f, t, user, cursor, limit).value;
      if p.hasMore {
        FollowLists(f, t, user, p.next, limit);
      }
    }
  }

  /** From the empty cursor every row of the user comes exactly once, newest first, at any limit. */
  lemma PagesListEveryRow(f: Format, t: Table, user: nat, limit: nat)
    requires Faithful(f) && limit >= 1
    ensures var all := Follow(f, t, user, [], limit);
            all.Ok? &&
            (forall k :: k in all.value <==> k in t && t[k] == user) &&
            (forall i, j | 0 <= i < j < |all.value| :: Less(all.value[j], all.value[i]))
  {
    FollowLists(f, t, user, [], limit);
    ListingMeans(Owned(t, user));
  }

  /** Rows that come or go at or above a cursor do not disturb the pages still to come. */
  lemma PagesIgnoreNewer(f: Format, t: Table, t1: Table, user: nat, at: Key, limit: nat)
    requires Faithful(f) && limit >= 1
    requires Below(Owned(t, user), at) == Below(Owned(t1, user), at)
    ensures var cursor := EncodeCursor(f.showTime(at.at), f.showId(at.id));
            Follow(f, t, user, cursor, limit) == Follow(f, t1, user, cursor, limit)
  {
    var cursor := EncodeCursor(f.showTime(at.at), f.showId(at.id));
    CursorRoundTrip(f.showTime(at.at), f.showId(at.id));
    FollowLists(f, t, user, cursor, limit);
    FollowLists(f, t1, user, cursor, limit);
  }
}
