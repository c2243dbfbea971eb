/**
 * The notification store (src/hooks/useNotifications.tsx): a list of at most
 * 50 notifications, newest first, an unread counter, and the set of content
 * ids seen so far, which each poll of the content compares against to decide
 * what to announce.
 *
 * Notification ids come from the clock and `Math.random`; here the `k`-th
 * notification of a call gets `idFor(k)`. Timestamps and the toast are left
 * out, and a poll is handed the content that `fetchAllContent` returned.
 */
module Notifications {
  import opened Wrappers
  import opened Strings
  import opened Seqs
  import opened ContentModel

  datatype Kind = NewContent | Trending | Personalized

  /** What `addNotification` is given. */
  datatype Draft = Draft(title: string, message: string, kind: Kind, contentType: ContentType, contentId: string)

  datatype Notification = Notification(
    id: string, title: string, message: string, kind: Kind,
    contentType: ContentType, contentId: string, read: bool)

  /** The list keeps this many notifications. */
  const Cap := 50

  function Stamp(d: Draft, id: string): (n: Notification)
    ensures !n.read && n.id == id && n.kind == d.kind && n.contentId == d.contentId
  {
    Notification(id, d.title, d.message, d.kind, d.contentType, d.contentId, false)
  }

  /** The drafts with the ids `idFor(base)`, `idFor(base + 1)`, …. */
  function Stamped(ds: seq<Draft>, idFor: nat -> string, base: nat): (r: seq<Notification>)
    ensures |r| == |ds| && forall k :: 0 <= k < |ds| ==> r[k] == Stamp(ds[k], idFor(base + k))
  {
    seq(|ds|, k requires 0 <= k < |ds| => Stamp(ds[k], idFor(base + k)))
  }

  lemma StampedConcat(a: seq<Draft>, b: seq<Draft>, idFor: nat -> string, base: nat)
    ensures Stamped(a + b, idFor, base) == Stamped(a, idFor, base) + Stamped(b, idFor, base + |a|)
  {
  }

  /** The list after adding `ns` one after the other, each in front and the list cut to 50 each time. */
  function Added(list: seq<Notification>, ns: seq<Notification>): (r: seq<Notification>)
    decreases |ns|
  {
    if ns == [] then list else Take([ns[|ns| - 1]] + Added(list, ns[..|ns| - 1]), Cap)
  }

  /** One more notification goes in front of what the earlier ones left. */
  lemma AddedSnoc(list: seq<Notification>, ds: seq<Draft>, d: Draft, idFor: nat -> string, base: nat)
    ensures Added(list, Stamped(ds + [d], idFor, base))
      == Take([Stamp(d, idFor(base + |ds|))] + Added(list, Stamped(ds, idFor, base)), Cap)
  {
    var ns := Stamped(ds + [d], idFor, base);
    assert ns[..|ns| - 1] == Stamped(ds, idFor, base);
  }

  /** The same step, for the prefixes of one list of drafts. */
  lemma AddedPrefix(list: seq<Notification>, ds: seq<Draft>, i: nat, idFor: nat -> string, base: nat)
    requires i < |ds|
    ensures Added(list, Stamped(ds[..i + 1], idFor, base))
      == Take([Stamp(ds[i], idFor(base + i))] + Added(list, Stamped(ds[..i], idFor, base)), Cap)
  {
    assert ds[..i + 1] == ds[..i] + [ds[i]];
    AddedSnoc(list, ds[..i], ds[i], idFor, base);
  }

  /** After any addition, the list holds at most 50 entries and the newest is first. */
  lemma AddedMeaning(list: seq<Notification>, ns: seq<Notification>)
    requires ns != []
    ensures |Added(list, ns)| <= Cap && Added(list, ns)[0] == ns[|ns| - 1]
  {
  }

  /** Adding two batches one after the other is adding them as one. */
  lemma {:induction false} AddedConcat(list: seq<Notification>, a: seq<Notification>, b: seq<Notification>)
    ensures Added(Added(list, a), b) == Added(list, a + b)
    decreases |b|
  {
    if b == [] {
      assert a + b == a;
    } else {
      assert (a + b)[..|a + b| - 1] == a + b[..|b| - 1];
      assert (a + b)[|a + b| - 1] == b[|b| - 1];
      AddedConcat(list, a, b[..|b| - 1]);
    }
  }

  /** `markAsRead`: flips `read` on the entries with the id, leaves the others as they are. */
  function MarkedRead(ns: seq<Notification>, id: string): (r: seq<Notification>)
    ensures |r| == |ns|
    ensures forall k :: 0 <= k < |ns| ==> r[k].read == (ns[k].read || ns[k].id == id)
    ensures forall k :: 0 <= k < |ns| ==> r[k] == ns[k].(read := r[k].read)
  {
    seq(|ns|, k requires 0 <= k < |ns| => if ns[k].id == id then ns[k].(read := true) else ns[k])
  }

  /** Marking the same id again changes nothing. */
  lemma MarkedReadIdempotent(ns: seq<Notification>, id: string)
    ensures MarkedRead(MarkedRead(ns, id), id) == MarkedRead(ns, id)
  {
  }

  /** `markAllAsRead` on the list. */
  function AllRead(ns: seq<Notification>): (r: seq<Notification>)
    ensures |r| == |ns| && forall k :: 0 <= k < |ns| ==> r[k] == ns[k].(read := true)
  {
    seq(|ns|, k requires 0 <= k < |ns| => ns[k].(read := true))
  }

  /** `title.slice(0, 60) + (title.length > 60 ? '...' : '')`. */
  function ShortTitle(title: string): (r: string)
    ensures |title| <= 60 ==> r == title
    ensures |title| > 60 ==> |r| == 63 && r[..60] == title[..60] && r[60..] == "..."
  {
    Prefix(title, 60) + (if |title| > 60 then "..." else "")
  }

  // ---------------------------------------------------------------------
  // What a poll announces
  // ---------------------------------------------------------------------

  /** The ids of `s`. */
  function Ids(s: seq<ContentItem>): (r: set<string>)
    ensures forall k :: 0 <= k < |s| ==> s[k].id in r
  {
    set k | 0 <= k < |s| :: s[k].id
  }

  function Unknown(known: set<string>): ContentItem -> bool {
    (item: ContentItem) => item.id !in known
  }

  /** One of the item's tags and one interest contain each other, ignoring case. */
  predicate MatchesInterests(item: ContentItem, interests: seq<string>) {
    exists i, j :: 0 <= i < |item.tags| && 0 <= j < |interests| &&
      (Contains(ToLower(item.tags[i]), ToLower(interests[j])) || Contains(ToLower(interests[j]), ToLower(item.tags[i])))
  }

  function InterestsOf(interests: seq<string>): ContentItem -> bool {
    (item: ContentItem) => MatchesInterests(item, interests)
  }

  /**
   * Not among the matching items. Matching is decided item by item, so this
   * is what `!matchingItems.includes(item)` tells for an item of `newItems`.
   */
  function OthersOf(interests: seq<string>): ContentItem -> bool {
    (item: ContentItem) => !MatchesInterests(item, interests)
  }

  /** The key under which an item's trending announcement is remembered. */
  function TrendKey(id: string): string {
    "trending-" + id
  }

  /** Engagement of at least 90 and not announced as trending yet. */
  function TrendsOf(known: set<string>): ContentItem -> bool {
    (item: ContentItem) => item.engagement >= 90 && TrendKey(item.id) !in known
  }

  function NewItems(all: seq<ContentItem>, known: set<string>): seq<ContentItem> {
    Filter(all, Unknown(known))
  }

  function Matching(items: seq<ContentItem>, interests: seq<string>): seq<ContentItem> {
    if |interests| > 0 then Filter(items, InterestsOf(interests)) else []
  }

  function Remaining(items: seq<ContentItem>, interests: seq<string>): seq<ContentItem> {
    Filter(items, OthersOf(interests))
  }

  function PersonalDraft(item: ContentItem): Draft {
    Draft("New " + TypeName(item.contentType) + " matches your interests!", ShortTitle(item.title),
      Personalized, item.contentType, item.id)
  }

  function SingleDraft(item: ContentItem): Draft {
    Draft("New " + TypeName(item.contentType) + " added", ShortTitle(item.title), NewContent, item.contentType, item.id)
  }

  function SummaryDraft(remaining: seq<ContentItem>): Draft
    requires remaining != []
  {
    Draft(NatToString(|remaining|) + " new items available", "Fresh content has been added to your feed",
      NewContent, Article, remaining[0].id)
  }

  function TrendDraft(item: ContentItem): Draft {
    Draft("\U{1F525} Trending now", ShortTitle(item.title), Trending, item.contentType, item.id)
  }

  function Map(items: seq<ContentItem>, f: ContentItem -> Draft): (r: seq<Draft>)
    ensures |r| == |items| && forall k :: 0 <= k < |items| ==> r[k] == f(items[k])
  {
    seq(|items|, k requires 0 <= k < |items| => f(items[k]))
  }

  /** The personal announcements: the first three matching new items. */
  function PersonalDrafts(newItems: seq<ContentItem>, interests: seq<string>): seq<Draft> {
    Map(Take(Matching(newItems, interests), 3), PersonalDraft)
  }

  /** The announcements of the other new items: a summary for five or more, single ones for a small batch with no match. */
  function BulkDrafts(newItems: seq<ContentItem>, interests: seq<string>): seq<Draft> {
    var remaining := Remaining(newItems, interests);
    if |remaining| >= 5 then [SummaryDraft(remaining)]
    else if |remaining| > 0 && |Matching(newItems, interests)| == 0 then Map(Take(remaining, 2), SingleDraft)
    else []
  }

  /** The trending candidate, given the ids known after the new items were recorded. */
  function TrendItems(all: seq<ContentItem>, known: set<string>): seq<ContentItem> {
    Take(Filter(all, TrendsOf(known)), 1)
  }

  /** The ids known once the new items are recorded. */
  function KnownWithNew(all: seq<ContentItem>, known: set<string>): set<string> {
    known + Ids(NewItems(all, known))
  }

  /** The announcements of the new items of a poll. */
  function NewDrafts(all: seq<ContentItem>, interests: seq<string>, known: set<string>): seq<Draft> {
    var newItems := NewItems(all, known);
    if |newItems| > 0 then PersonalDrafts(newItems, interests) + BulkDrafts(newItems, interests) else []
  }

  /** Everything a poll after the first announces, in order. */
  function PollDrafts(all: seq<ContentItem>, interests: seq<string>, known: set<string>): seq<Draft> {
    NewDrafts(all, interests, known) + Map(TrendItems(all, KnownWithNew(all, known)), TrendDraft)
  }

  /** The trending keys of `s`. */
  function TrendKeys(s: seq<ContentItem>): (r: set<string>)
    ensures forall k :: 0 <= k < |s| ==> TrendKey(s[k].id) in r
    decreases |s|
  {
    if s == [] then {} else TrendKeys(s[..|s| - 1]) + {TrendKey(s[|s| - 1].id)}
  }

  /** The known ids after such a poll. */
  function KnownAfter(all: seq<ContentItem>, known: set<string>): set<string> {
    var k1 := KnownWithNew(all, known);
    k1 + TrendKeys(TrendItems(all, k1))
  }

  /** After a poll every id of the content is known. */
  lemma PollRecordsIds(all: seq<ContentItem>, known: set<string>)
    ensures Ids(all) <= KnownAfter(all, known)
  {
    forall x | x in Ids(all) ensures x in KnownAfter(all, known) {
      var k :| 0 <= k < |all| && all[k].id == x;
      if x !in known {
        assert Unknown(known)(all[k]);
        assert all[k] in NewItems(all, known);
        var j :| 0 <= j < |NewItems(all, known)| && NewItems(all, known)[j] == all[k];
      }
    }
  }

  /** When every id is already known, a poll announces at most one trending item and nothing else. */
  lemma RepollIsQuiet(all: seq<ContentItem>, interests: seq<string>, known: set<string>)
    requires Ids(all) <= known
    ensures var ds := PollDrafts(all, interests, known);
      |ds| <= 1 && forall k :: 0 <= k < |ds| ==> ds[k].kind == Trending
  {
  }

  /** No interests, no matches; at most three personal announcements, all personal. */
  lemma PersonalRule(newItems: seq<ContentItem>, interests: seq<string>)
    ensures interests == [] ==> Matching(newItems, interests) == []
    ensures var ds := PersonalDrafts(newItems, interests);
      |ds| == Min(3, |Matching(newItems, interests)|) && forall k :: 0 <= k < |ds| ==> ds[k].kind == Personalized
    ensures forall k :: 0 <= k < |Matching(newItems, interests)| ==>
      MatchesInterests(Matching(newItems, interests)[k], interests) && Matching(newItems, interests)[k] in newItems
  {
  }

  /**
   * Five or more other new items give exactly one summary; one to four give
   * up to two single announcements when nothing matched and none otherwise.
   */
  lemma BulkRule(newItems: seq<ContentItem>, interests: seq<string>)
    ensures var remaining := Remaining(newItems, interests);
      var ds := BulkDrafts(newItems, interests);
      (|remaining| >= 5 ==> |ds| == 1 && ds[0].kind == NewContent && ds[0].contentId == remaining[0].id)
      && (0 < |remaining| < 5 && Matching(newItems, interests) == [] ==>
            |ds| == Min(2, |remaining|) && forall k :: 0 <= k < |ds| ==> ds[k] == SingleDraft(remaining[k]))
      && (|remaining| < 5 && Matching(newItems, interests) != [] ==> ds == [])
      && (remaining == [] ==> ds == [])
  {
  }

  /** A poll announces at most one trending item, and remembers it. */
  lemma TrendRule(all: seq<ContentItem>, known: set<string>)
    ensures var k1 := KnownWithNew(all, known);
      var ts := TrendItems(all, k1);
      |ts| <= 1
      && (forall k :: 0 <= k < |ts| ==>
            (ts[k].engagement >= 90 && TrendKey(ts[k].id) !in k1 && TrendKey(ts[k].id) in KnownAfter(all, known)))
  {
  }

  /** Once an item's trending key is known, no later poll announces an item with that id as trending. */
  lemma TrendsOnce(all: seq<ContentItem>, known: set<string>, id: string)
    requires TrendKey(id) in known
    ensures forall k :: 0 <= k < |TrendItems(all, KnownWithNew(all, known))| ==>
      TrendItems(all, KnownWithNew(all, known))[k].id != id
  {
  }

  /** The store's state. */
  class NotificationStore {
    var notifications: seq<Notification>
    var unreadCount: int
    var known: set<string>
    var firstLoad: bool

    constructor ()
      ensures notifications == [] && unreadCount == 0 && known == {} && firstLoad
    {
      notifications, unreadCount, known, firstLoad := [], 0, {}, true;
    }

    /** `addNotification`: the new notification, unread, in front; the 50 newest are kept; one more unread. */
    method AddNotification(d: Draft, id: string)
      modifies this`notifications, this`unreadCount
      ensures notifications == Take([Stamp(d, id)] + old(notifications), Cap)
      ensures unreadCount == old(unreadCount) + 1
    {
      notifications := Take([Stamp(d, id)] + notifications, Cap);
      unreadCount := unreadCount + 1;
    }

    /** `markAsRead`: the count drops by one, but not below 0, whether or not the entry was unread or present. */
    method MarkAsRead(id: string)
      modifies this`notifications, this`unreadCount
      ensures notifications == MarkedRead(old(notifications), id)
      ensures unreadCount == if old(unreadCount) - 1 > 0 then old(unreadCount) - 1 else 0
    {
      notifications := MarkedRead(notifications, id);
      unreadCount := if unreadCount - 1 > 0 then unreadCount - 1 else 0;
    }

    method MarkAllAsRead()
      modifies this`notifications, this`unreadCount
      ensures notifications == AllRead(old(notifications)) && unreadCount == 0
    {
      notifications := AllRead(notifications);
      unreadCount := 0;
    }

    method ClearAll()
      modifies this`notifications, this`unreadCount
      ensures notifications == [] && unreadCount == 0
    {
      notifications := [];
      unreadCount := 0;
    }

    /** `forEach(addNotification)` over `ds`, the `k`-th getting `idFor(base + k)`. */
    method NotifyAll(ds: seq<Draft>, idFor: nat -> string, base: nat)
      modifies this`notifications, this`unreadCount
      ensures notifications == Added(old(notifications), Stamped(ds, idFor, base))
      ensures unreadCount == old(unreadCount) + |ds|
    {
      for i := 0 to |ds|
        invariant notifications == Added(old(notifications), Stamped(ds[..i], idFor, base))
        invariant unreadCount == old(unreadCount) + i
      {
        AddedPrefix(old(notifications), ds, i, idFor, base);
        AddNotification(ds[i], idFor(base + i));
      }
      assert ds[..|ds|] == ds;
    }

    /** `newItems.forEach(item => known.add(item.id))`. */
    method RecordIds(items: seq<ContentItem>)
      modifies this`known
      ensures known == old(known) + Ids(items)
    {
      for i := 0 to |items|
        invariant known == old(known) + Ids(items[..i])
      {
        known := known + {items[i].id};
        assert Ids(items[..i + 1]) == Ids(items[..i]) + {items[i].id} by {
          assert items[..i + 1][i] == items[i];
          forall x | x in Ids(items[..i + 1]) ensures x in Ids(items[..i]) + {items[i].id} {
            var k :| 0 <= k < i + 1 && items[..i + 1][k].id == x;
            if k < i { assert items[..i + 1][k] == items[..i][k]; }
          }
        }
      }
      assert items[..|items|] == items;
    }

    /** The announcements of the new items of a poll: the personal ones, then the summary or the single ones. */
    method AnnounceNew(newItems: seq<ContentItem>, interests: seq<string>, idFor: nat -> string) returns (sent: seq<Draft>)
      modifies this`notifications, this`unreadCount
      ensures sent == PersonalDrafts(newItems, interests) + BulkDrafts(newItems, interests)
      ensures notifications == Added(old(notifications), Stamped(sent, idFor, 0))
      ensures unreadCount == old(unreadCount) + |sent|
    {
      ghost var list0 := notifications;
      var matching := if |interests| > 0 then Filter(newItems, InterestsOf(interests)) else [];
      var personal := Map(Take(matching, 3), PersonalDraft);
      NotifyAll(personal, idFor, 0);
      var remaining := Filter(newItems, OthersOf(interests));
      var bulk: seq<Draft> := [];
      if |remaining| >= 5 {
        bulk := [SummaryDraft(remaining)];
      } else if |remaining| > 0 && |matching| == 0 {
        bulk := Map(Take(remaining, 2), SingleDraft);
      }
      NotifyAll(bulk, idFor, |personal|);
      AddedConcat(list0, Stamped(personal, idFor, 0), Stamped(bulk, idFor, |personal|));
      StampedConcat(personal, bulk, idFor, 0);
      sent := personal + bulk;
    }

    /** `trendingItems.forEach(item => known.add('trending-' + item.id))`. */
    method RecordTrendKeys(trending: seq<ContentItem>)
      modifies this`known
      ensures known == old(known) + TrendKeys(trending)
    {
      for i := 0 to |trending|
        invariant known == old(known) + TrendKeys(trending[..i])
      {
        known := known + {TrendKey(trending[i].id)};
        assert trending[..i + 1][..i] == trending[..i];
      }
      assert trending[..|trending|] == trending;
    }

    /**
     * The trending announcements, each remembered under its trending key.
     * (The source records the key and adds the notification item by item;
     * the two touch different state, so doing all of one, then all of the
     * other, ends in the same state.)
     */
    method AnnounceTrending(trending: seq<ContentItem>, idFor: nat -> string, base: nat)
      modifies this`notifications, this`unreadCount, this`known
      ensures known == old(known) + TrendKeys(trending)
      ensures notifications == Added(old(notifications), Stamped(Map(trending, TrendDraft), idFor, base))
      ensures unreadCount == old(unreadCount) + |trending|
    {
      RecordTrendKeys(trending);
      NotifyAll(Map(trending, TrendDraft), idFor, base);
    }

    /** The new-item part of a poll: records the unseen ids and announces them. */
    method AnnounceUnseen(all: seq<ContentItem>, interests: seq<string>, idFor: nat -> string) returns (sent: seq<Draft>)
      modifies this`notifications, this`unreadCount, this`known
      ensures sent == NewDrafts(all, interests, old(known))
      ensures known == KnownWithNew(all, old(known))
      ensures notifications == Added(old(notifications), Stamped(sent, idFor, 0))
      ensures unreadCount == old(unreadCount) + |sent|
    {
      var newItems := Filter(all, Unknown(known));
      sent := [];
      if |newItems| > 0 {
        RecordIds(newItems);
        sent := AnnounceNew(newItems, interests, idFor);
      } else {
        assert Ids(newItems) == {};
      }
    }

    /**
     * One poll. The first only records the ids; every later one announces
     * the new, matching and trending items and records what it saw.
     */
    method CheckForNewContent(all: seq<ContentItem>, interests: seq<string>, idFor: nat -> string)
      modifies this
      ensures !firstLoad
      ensures old(firstLoad) ==>
        notifications == old(notifications) && unreadCount == old(unreadCount) && known == Ids(all)
      ensures !old(firstLoad) ==>
        var ds := PollDrafts(all, interests, old(known));
        notifications == Added(old(notifications), Stamped(ds, idFor, 0))
        && unreadCount == old(unreadCount) + |ds|
        && known == KnownAfter(all, old(known))
    {
      if firstLoad {
        known := Ids(all);
        firstLoad := false;
        return;
      }
      ghost var known0, list0 := known, notifications;
      var sent := AnnounceUnseen(all, interests, idFor);
      var trending := Take(Filter(all, TrendsOf(known)), 1);
      AnnounceTrending(trending, idFor, |sent|);
      PollComposes(all, interests, known0, list0, idFor);
    }
  }

  /** The two halves of a poll make up `PollDrafts` and `KnownAfter`. */
  lemma PollComposes(all: seq<ContentItem>, interests: seq<string>, known: set<string>,
                     list: seq<Notification>, idFor: nat -> string)
    ensures var sent := NewDrafts(all, interests, known);
      var trend := Map(TrendItems(all, KnownWithNew(all, known)), TrendDraft);
      Added(Added(list, Stamped(sent, idFor, 0)), Stamped(trend, idFor, |sent|))
        == Added(list, Stamped(PollDrafts(all, interests, known), idFor, 0))
      && |sent| + |trend| == |PollDrafts(all, interests, known)|
  {
    var sent := NewDrafts(all, interests, known);
    var trend := Map(TrendItems(all, KnownWithNew(all, known)), TrendDraft);
    AddedInTurn(list, sent, trend, idFor);
  }

  /** Adding two lists of drafts in turn, the ids running on, is adding them joined. */
  lemma AddedInTurn(list: seq<Notification>, a: seq<Draft>, b: seq<Draft>, idFor: nat -> string)
    ensures Added(Added(list, Stamped(a, idFor, 0)), Stamped(b, idFor, |a|)) == Added(list, Stamped(a + b, idFor, 0))
  {
    AddedConcat(list, Stamped(a, idFor, 0), Stamped(b, idFor, |a|));
    StampedConcat(a, b, idFor, 0);
  }

  /**
   * `unreadCount` is not tied to the list: after 51 additions it is 51
   * (`before`) while the list holds 50, and marking an absent id still
   * lowers it to 50 although every entry stays unread.
   */
  method CountOutlivesList(d: Draft) returns (s: NotificationStore, before: nat)
    ensures before == 51 && |s.notifications| == 50 && s.unreadCount == 50
    ensures forall k :: 0 <= k < |s.notifications| ==> !s.notifications[k].read
  {
    s := new NotificationStore();
    var i := 0;
    while i < 51
      invariant 0 <= i <= 51 && s.unreadCount == i
      invariant |s.notifications| == Min(i, 50)
      invariant forall k :: 0 <= k < |s.notifications| ==> !s.notifications[k].read && s.notifications[k].id == "n"
    {
      s.AddNotification(d, "n");
      i := i + 1;
    }
    before := s.unreadCount;
    s.MarkAsRead("absent");
  }
}
