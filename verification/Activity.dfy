/** The Activity feed: two logs read page by page behind one cursor, src/lib/activity-query.ts. */
module Activity {
  import opened Days
  import opened Feeds

  // ---------------------------------------------------------------- rows

  datatype Audience = Crm | Cold

  /** Who a row is about, and the audience stamped on it when it was written. */
  datatype Who = Who(stamp: Option<Audience>, person: bool, contact: bool)

  datatype Entity =
    | Task | Enrollment | Meeting | Campaign | Sequence | Person | SandboxContact | SandboxMove
    | Bellwether | Suppression | Call | Ticket | NumberCheck | Administration

  datatype Kind = TouchKind | TaskKind | EnrollmentKind | MeetingKind | CampaignKind | SequenceKind | PersonKind | ContactKind | CallKind | TicketKind

  datatype Channel = Email | PhoneCall | Linkedin

  /** An audit row, with the row it points at when that still exists, or a touch. */
  datatype Event =
    | Audited(entity: Entity, login: bool, linked: Option<Who>, actor: Option<nat>, text: string)
    | Touched(who: Who, channel: Channel, counted: bool, actor: Option<nat>, text: string)

  /** The two logs, newest first as the database orders them; touches sort above audit rows of the same instant. */
  datatype Log = Log(audits: seq<Item<Event>>, touches: seq<Item<Event>>)

  ghost predicate ValidLog(l: Log) {
    && Descending(l.audits) && Descending(l.touches)
    && (forall i :: 0 <= i < |l.audits| ==> l.audits[i].key.major == 0 && l.audits[i].row.Audited?)
    && forall i :: 0 <= i < |l.touches| ==> l.touches[i].key.major == 1 && l.touches[i].row.Touched?
  }

  function Everything(l: Log): seq<Item<Event>> {
    Merge(l.audits, l.touches)
  }

  function KindOf(e: Entity): Kind {
    match e
    case Task => TaskKind
    case Enrollment => EnrollmentKind
    case Meeting => MeetingKind
    case Campaign => CampaignKind
    case Sequence => SequenceKind
    case Person => PersonKind
    case Call => CallKind
    case Ticket => TicketKind
    case NumberCheck => TicketKind
    case Administration => PersonKind
    case _ => ContactKind
  }

  predicate ColdOnly(e: Entity) {
    e in {SandboxContact, SandboxMove, Bellwether, Suppression}
  }

  predicate CrmOnly(e: Entity) {
    e in {Person, Meeting, Sequence, NumberCheck}
  }

  /** sideOf: the stamp decides, and before stamping, who it is about. */
  function SideOf(w: Who): Option<Audience> {
    if w.stamp.Some? then w.stamp
    else if w.person then Some(Crm)
    else if w.contact then Some(Cold)
    else None
  }

  /** An item's audience, as the feed shows it. */
  function Side(e: Event): Option<Audience> {
    match e
    case Touched(who, _, _, _, _) => SideOf(who)
    case Audited(entity, _, linked, _, _) =>
      if ColdOnly(entity) then Some(Cold)
      else if CrmOnly(entity) then Some(Crm)
      else if linked.None? then None
      else match entity
        case Campaign => Some(if linked.value.stamp == Some(Cold) then Cold else Crm)
        case Ticket => if linked.value.person then Some(Crm) else if linked.value.contact then Some(Cold) else None
        case Task => SideOf(linked.value)
        case Enrollment => SideOf(linked.value)
        case Call => SideOf(linked.value)
        case _ => None
  }

  // ---------------------------------------------------------------- filters

  datatype Filters = Filters(
    limit: Option<int>, actor: Option<nat>, kinds: set<Kind>, q: Option<Event -> bool>, channel: Option<Channel>,
    audience: Option<Audience>, from: Option<int>, to: Option<int>, scope: Event -> bool)

  function PageSize(limit: Option<int>): (n: nat)
    ensures 1 <= n <= 200
  {
    var asked := if limit.Some? then limit.value else 60;
    var atLeast := if asked < 1 then 1 else asked;
    if atLeast > 200 then 200 else atLeast
  }

  predicate WantsKind(f: Filters, k: Kind) {
    f.kinds == {} || k in f.kinds
  }

  /** What a row must be for the view, leaving out audience and search. */
  predicate Listed(f: Filters, x: Item<Event>) {
    && f.scope(x.row)
    && (f.from.Some? ==> f.from.value <= x.key.at) && (f.to.Some? ==> x.key.at < f.to.value)
    && (f.actor.Some? ==> x.row.actor == f.actor)
    && match x.row
       case Audited(entity, login, _, _, _) => f.channel.None? && entity != Administration && WantsKind(f, KindOf(entity)) && !login
       case Touched(_, channel, counted, _, _) => WantsKind(f, TouchKind) && counted && (f.channel.Some? ==> channel == f.channel.value)
  }

  /** touchAudience: a touch of this side. */
  predicate TouchAudience(a: Option<Audience>, w: Who) {
    match a
    case None => true
    case Some(Crm) => w.stamp == Some(Crm) || (w.stamp.None? && w.person)
    case Some(Cold) => w.stamp == Some(Cold) || (w.stamp.None? && !w.person && w.contact)
  }

  /** The part of the audience choice that is pushed down into the queries. */
  predicate Pushed(a: Option<Audience>, e: Event) {
    match e
    case Audited(entity, _, _, _, _) => !(a == Some(Crm) && ColdOnly(entity)) && !(a == Some(Cold) && CrmOnly(entity))
    case Touched(who, _, _, _, _) => TouchAudience(a, who)
  }

  /** What a filtered view keeps of the rows it has read. */
  predicate Kept(f: Filters, e: Event) {
    (f.audience.Some? ==> Side(e) == f.audience) && (f.q.Some? ==> f.q.value(e))
  }

  /** The query of one page: Listed, and the pushed part of the audience. */
  function Queried(f: Filters): Item<Event> -> bool {
    (x: Item<Event>) => Listed(f, x) && Pushed(f.audience, x.row)
  }

  function KeptBy(f: Filters): Item<Event> -> bool {
    (x: Item<Event>) => Kept(f, x.row)
  }

  /** What the view is meant to show: every row listed and kept. */
  function Matching(f: Filters): Item<Event> -> bool {
    (x: Item<Event>) => Listed(f, x) && Kept(f, x.row)
  }

  // ---------------------------------------------------------------- cursors

  /** parseActivityCursor: nothing, an instant alone, or an instant and the prefixed id to resume after. */
  datatype Cursor = Newest | Before(at: int) | After(key: Key)

  /** beforeWhere, for the source whose ids carry `prefix`. */
  predicate BeforeWhere(prefix: nat, c: Cursor, k: Key) {
    match c
    case Newest => true
    case Before(at) => k.at < at
    case After(last) =>
      || k.at < last.at
      || (if prefix < last.major then k.at == last.at
          else if prefix == last.major then k.at == last.at && k.minor < last.minor
          else false)
  }

  /** What resuming after a cursor means on the merged feed. */
  predicate Past(c: Cursor, k: Key) {
    match c
    case Newest => true
    case Before(at) => k.at < at
    case After(last) => Newer(last, k)
  }

  function PastOf(c: Cursor): Item<Event> -> bool {
    (x: Item<Event>) => Past(c, x.key)
  }

  // ---------------------------------------------------------------- pages

  function AuditWhere(f: Filters, c: Cursor): Item<Event> -> bool {
    (x: Item<Event>) => Listed(f, x) && Pushed(f.audience, x.row) && BeforeWhere(0, c, x.key)
  }

  function TouchWhere(f: Filters, c: Cursor): Item<Event> -> bool {
    (x: Item<Event>) => Listed(f, x) && Pushed(f.audience, x.row) && BeforeWhere(1, c, x.key)
  }

  /** activityPage */
  function ActivityPage(l: Log, f: Filters, c: Cursor, limit: nat): Page<Event>
    requires limit >= 1
  {
    PageOf(Filter(l.audits, AuditWhere(f, c)), Filter(l.touches, TouchWhere(f, c)), limit)
  }

  /** `lookedTo`: set when a filtered view stopped reading early. */
  datatype Listing = Listing(items: seq<Item<Event>>, next: Option<Key>, more: bool, lookedTo: Option<int>)

  const MAX_PAGES_READ: nat := 15
  const READ_PAGE: nat := 200

  predicate Plain(f: Filters) {
    f.q.None? && f.audience.None?
  }

  /** The rest of a filtered view's reading, with what it has found so far. */
  function ReadOn(l: Log, f: Filters, c: Cursor, matches: seq<Item<Event>>, read: nat): Listing
    requires read < MAX_PAGES_READ
    decreases MAX_PAGES_READ - read
  {
    var limit := PageSize(f.limit);
    var page := ActivityPage(l, f, c, READ_PAGE);
    var found := matches + Filter(page.items, KeptBy(f));
    if page.next.None? || |found| > limit then
      Listing(Take(found, limit), if |found| > limit then Some(found[limit - 1].key) else None, |found| > limit, None)
    else if read + 1 >= MAX_PAGES_READ then Listing(found, page.next, true, Some(page.next.value.at))
    else ReadOn(l, f, After(page.next.value), found, read + 1)
  }

  function ListedFrom(l: Log, f: Filters, c: Cursor): Listing {
    if Plain(f) then
      var p := ActivityPage(l, f, c, PageSize(f.limit));
      Listing(p.items, p.next, p.next.Some?, None)
    else ReadOn(l, f, c, [], 0)
  }

  /** The do-while loop: page after page until enough match, the logs end, or fifteen pages are read. */
  method ReadPages(l: Log, f: Filters, from: Cursor) returns (r: Listing)
    ensures r == ReadOn(l, f, from, [], 0)
  {
    hide ActivityPage, Filter, KeptBy, PageSize;
    var limit := PageSize(f.limit);
    var matches, before, read := [], from, 0;
    while true
      invariant read < MAX_PAGES_READ
      invariant ReadOn(l, f, from, [], 0) == ReadOn(l, f, before, matches, read)
      decreases MAX_PAGES_READ - read
    {
      var page := ActivityPage(l, f, before, READ_PAGE);
      matches := matches + Filter(page.items, KeptBy(f));
      if page.next.None? || |matches| > limit {
        var items, more := Take(matches, limit), |matches| > limit;
        return Listing(items, if more then Some(items[limit - 1].key) else None, more, None);
      }
      read := read + 1;
      if read >= MAX_PAGES_READ {
        return Listing(matches, page.next, true, Some(page.next.value.at));
      }
      before := After(page.next.value);
    }
  }

  /** listActivity: one page straight from the logs, or the loop when a search or an audience filters it. */
  method ListActivity(l: Log, f: Filters, before: Cursor) returns (r: Listing)
    ensures r == ListedFrom(l, f, before)
  {
    hide ActivityPage, ReadOn;
    if Plain(f) {
      var p := ActivityPage(l, f, before, PageSize(f.limit));
      r := Listing(p.items, p.next, p.next.Some?, None);
    } else {
      r := ReadPages(l, f, before);
    }
  }

  // ---------------------------------------------------------------- the queries ask for the right rows

  /** The database condition is exactly "after the cursor" of the merged feed. */
  lemma {:induction false} BeforeWhereIsPast(c: Cursor, k: Key)
    ensures BeforeWhere(k.major, c, k) <==> Past(c, k)
  {
  }

  /** A touch the queries leave out for its audience would not have been kept, and none kept is left out. */
  lemma {:induction false} TouchAudienceIsSide(a: Audience, w: Who)
    ensures TouchAudience(Some(a), w) <==> SideOf(w) == Some(a)
  {
  }

  /** Pushing the audience down into the queries changes nothing of what is shown. */
  lemma {:induction false} PushingChangesNothing(f: Filters, x: Item<Event>)
    ensures Queried(f)(x) && KeptBy(f)(x) <==> Matching(f)(x)
  {
    if f.audience.Some? && x.row.Touched? {
      TouchAudienceIsSide(f.audience.value, x.row.who);
    }
  }

  /** What a page's queries can see from a cursor on. */
  ghost function Seen(l: Log, f: Filters, c: Cursor): seq<Item<Event>> {
    Filter(Everything(l), Both(Queried(f), PastOf(c)))
  }

  /** What a view still has to show from a cursor on. */
  ghost function Rest(l: Log, f: Filters, c: Cursor): seq<Item<Event>> {
    Filter(Everything(l), Both(Matching(f), PastOf(c)))
  }

  lemma {:induction false} LogsMerge(l: Log)
    requires ValidLog(l)
    ensures Apart(l.audits, l.touches) && Descending(Everything(l))
  {
    MergeDescends(l.audits, l.touches);
  }

  /** Every page is the front of what its queries can see. */
  lemma {:induction false} ActivityPageIsFront(l: Log, f: Filters, c: Cursor, limit: nat)
    requires ValidLog(l) && limit >= 1
    ensures var p := ActivityPage(l, f, c, limit); var seen := Seen(l, f, c);
      && p.items == Take(seen, limit)
      && p.next == if |seen| > limit then Some(seen[limit - 1].key) else None
  {
    hide Queried, PastOf, AuditWhere, TouchWhere, Merge, Filter, PageOf;
    LogsMerge(l);
    var w := Both(Queried(f), PastOf(c));
    QueriesSee(l, f, c);
    FilterDescends(l.audits, w);
    FilterDescends(l.touches, w);
    FilteredApart(l.audits, l.touches, w);
    FilterOfMerge(l.audits, l.touches, w);
    PageIsFront(Filter(l.audits, w), Filter(l.touches, w), limit);
  }

  lemma {:induction false} QueriesSee(l: Log, f: Filters, c: Cursor)
    requires ValidLog(l)
    ensures Filter(l.audits, AuditWhere(f, c)) == Filter(l.audits, Both(Queried(f), PastOf(c)))
    ensures Filter(l.touches, TouchWhere(f, c)) == Filter(l.touches, Both(Queried(f), PastOf(c)))
  {
    hide Filter, Listed, Pushed, BeforeWhere, Past;
    forall x | x in l.audits
      ensures AuditWhere(f, c)(x) == Both(Queried(f), PastOf(c))(x)
    {
      BeforeWhereIsPast(c, x.key);
    }
    FilterSame(l.audits, AuditWhere(f, c), Both(Queried(f), PastOf(c)));
    forall x | x in l.touches
      ensures TouchWhere(f, c)(x) == Both(Queried(f), PastOf(c))(x)
    {
      BeforeWhereIsPast(c, x.key);
    }
    FilterSame(l.touches, TouchWhere(f, c), Both(Queried(f), PastOf(c)));
  }

  // ---------------------------------------------------------------- resuming

  /** Resuming after an item of a view leaves exactly the items behind it. */
  lemma {:induction false} ResumesBehind(l: Log, p: Item<Event> -> bool, c: Cursor, i: nat)
    requires ValidLog(l) && i < |Filter(Everything(l), Both(p, PastOf(c)))|
    ensures var view := Filter(Everything(l), Both(p, PastOf(c)));
      && Past(c, view[i].key)
      && Filter(Everything(l), Both(p, PastOf(After(view[i].key)))) == view[i + 1..]
  {
    hide Filter;
    LogsMerge(l);
    var feed, view := Everything(l), Filter(Everything(l), Both(p, PastOf(c)));
    FilterDescends(feed, Both(p, PastOf(c)));
    FilterMember(feed, Both(p, PastOf(c)), view[i]);
    OlderIsRest(view, i);
    FilterTwice(feed, Both(p, PastOf(c)), Older(view[i].key));
    forall x | x in feed
      ensures Both(Both(p, PastOf(c)), Older(view[i].key))(x) == Both(p, PastOf(After(view[i].key)))(x)
    {
    }
    FilterSame(feed, Both(Both(p, PastOf(c)), Older(view[i].key)), Both(p, PastOf(After(view[i].key))));
  }

  /** Keeping what a view keeps of what its queries see is what it has to show. */
  lemma {:induction false} KeptOfSeen(l: Log, f: Filters, c: Cursor)
    ensures Filter(Seen(l, f, c), KeptBy(f)) == Rest(l, f, c)
  {
    hide Filter, Queried, KeptBy, Matching;
    var feed := Everything(l);
    FilterTwice(feed, Both(Queried(f), PastOf(c)), KeptBy(f));
    forall x | x in feed
      ensures Both(Both(Queried(f), PastOf(c)), KeptBy(f))(x) == Both(Matching(f), PastOf(c))(x)
    {
      PushingChangesNothing(f, x);
    }
    FilterSame(feed, Both(Both(Queried(f), PastOf(c)), KeptBy(f)), Both(Matching(f), PastOf(c)));
  }

  /** One page of reading: what it keeps, and what is still to show from its cursor. */
  lemma {:induction false} ReadingSplits(l: Log, f: Filters, c: Cursor)
    requires ValidLog(l)
    ensures var p := ActivityPage(l, f, c, READ_PAGE);
      && (p.next.None? ==> Filter(p.items, KeptBy(f)) == Rest(l, f, c))
      && (p.next.Some? ==> Past(c, p.next.value) && Filter(p.items, KeptBy(f)) + Rest(l, f, After(p.next.value)) == Rest(l, f, c))
  {
    hide Filter, Queried, KeptBy, Matching, ActivityPage;
    var p, seen := ActivityPage(l, f, c, READ_PAGE), Seen(l, f, c);
    ActivityPageIsFront(l, f, c, READ_PAGE);
    KeptOfSeen(l, f, c);
    if p.next.Some? {
      ResumesBehind(l, Queried(f), c, READ_PAGE - 1);
      KeptOfSeen(l, f, After(p.next.value));
      FilterOfSum(seen[..READ_PAGE], seen[READ_PAGE..], KeptBy(f));
      assert seen == seen[..READ_PAGE] + seen[READ_PAGE..];
    }
  }

  /** What a listing from `c` promises, for a view with `rest` still to show. */
  ghost predicate Right(l: Log, f: Filters, c: Cursor, r: Listing) {
    var rest, limit := Rest(l, f, c), PageSize(f.limit);
    && (r.more <==> r.next.Some?)
    && |r.items| <= limit && r.items <= rest
    && (!r.more ==> r.items == rest)
    && (r.more ==> Past(c, r.next.value) && Rest(l, f, After(r.next.value)) == rest[|r.items|..])
    && (r.lookedTo.None? ==> r.items == Take(rest, limit))
    && (r.lookedTo.Some? ==> r.more && r.lookedTo.value == r.next.value.at)
  }

  lemma {:induction false} ListingIsRight(l: Log, f: Filters, c: Cursor)
    requires ValidLog(l)
    ensures Right(l, f, c, ListedFrom(l, f, c))
  {
    hide Filter, ReadOn, ActivityPage, Right;
    if Plain(f) {
      PlainIsRight(l, f, c);
    } else {
      ReadingIsRight(l, f, c, c, [], 0);
    }
  }

  lemma {:induction false} PlainIsRight(l: Log, f: Filters, c: Cursor)
    requires ValidLog(l) && Plain(f)
    ensures Right(l, f, c, ListedFrom(l, f, c))
  {
    hide Filter, ActivityPage, Listed, Queried, Matching;
    var limit := PageSize(f.limit);
    ActivityPageIsFront(l, f, c, limit);
    PlainSeesAll(l, f, c);
    if |Rest(l, f, c)| > limit {
      ResumesBehind(l, Matching(f), c, limit - 1);
    }
  }

  /** Without audience or search, the queries see exactly what is shown. */
  lemma {:induction false} PlainSeesAll(l: Log, f: Filters, c: Cursor)
    requires Plain(f)
    ensures Seen(l, f, c) == Rest(l, f, c)
  {
    hide Filter, Listed;
    FilterSame(Everything(l), Both(Queried(f), PastOf(c)), Both(Matching(f), PastOf(c)));
  }

  /** The reading loop's invariant, to its end: found so far, then the rest from where it stands. */
  lemma {:induction false} ReadingIsRight(l: Log, f: Filters, c0: Cursor, c: Cursor, matches: seq<Item<Event>>, read: nat)
    requires ValidLog(l) && read < MAX_PAGES_READ && |matches| <= PageSize(f.limit)
    requires matches + Rest(l, f, c) == Rest(l, f, c0)
    requires c == c0 || (c.After? && Past(c0, c.key))
    ensures Right(l, f, c0, ReadOn(l, f, c, matches, read))
    decreases MAX_PAGES_READ - read
  {
    hide Filter, ActivityPage, KeptBy, PageSize, Right, Rest, Past, Take, Merge, ReadOn;
    ReadOnce(l, f, c, matches, read);
    var limit := PageSize(f.limit);
    var page := ActivityPage(l, f, c, READ_PAGE);
    var found := matches + Filter(page.items, KeptBy(f));
    OneMoreRead(l, f, c0, c, matches);
    if page.next.None? || |found| > limit {
      EndsRight(l, f, c0, found);
    } else if read + 1 >= MAX_PAGES_READ {
      CutRight(l, f, c0, found, page.next.value);
    } else {
      ReadingIsRight(l, f, c0, After(page.next.value), found, read + 1);
    }
  }

  /** One pass of the loop, spelt out. */
  lemma {:induction false} ReadOnce(l: Log, f: Filters, c: Cursor, matches: seq<Item<Event>>, read: nat)
    requires read < MAX_PAGES_READ
    ensures var limit, page := PageSize(f.limit), ActivityPage(l, f, c, READ_PAGE);
      var found := matches + Filter(page.items, KeptBy(f));
      ReadOn(l, f, c, matches, read) ==
      if page.next.None? || |found| > limit then
        Listing(Take(found, limit), if |found| > limit then Some(found[limit - 1].key) else None, |found| > limit, None)
      else if read + 1 >= MAX_PAGES_READ then Listing(found, page.next, true, Some(page.next.value.at))
      else ReadOn(l, f, After(page.next.value), found, read + 1)
  {
    hide ActivityPage, Filter, KeptBy, PageSize, Take;
  }

  /** One pass of the loop keeps it. */
  lemma {:induction false} OneMoreRead(l: Log, f: Filters, c0: Cursor, c: Cursor, matches: seq<Item<Event>>)
    requires ValidLog(l) && matches + Rest(l, f, c) == Rest(l, f, c0)
    requires c == c0 || (c.After? && Past(c0, c.key))
    ensures var page := ActivityPage(l, f, c, READ_PAGE);
      var found := matches + Filter(page.items, KeptBy(f));
      && found <= Rest(l, f, c0)
      && (page.next.None? ==> found == Rest(l, f, c0))
      && (page.next.Some? ==> Past(c0, page.next.value) && found + Rest(l, f, After(page.next.value)) == Rest(l, f, c0))
  {
    hide Filter, ActivityPage, KeptBy, Rest, Merge;
    var page := ActivityPage(l, f, c, READ_PAGE);
    ReadingSplits(l, f, c);
    if page.next.Some? {
      Associates(matches, Filter(page.items, KeptBy(f)), Rest(l, f, After(page.next.value)));
      PastIsTransitive(c0, c, page.next.value);
    }
  }

  /** The loop ends with everything found, or with more than the page holds. */
  lemma {:induction false} EndsRight(l: Log, f: Filters, c0: Cursor, found: seq<Item<Event>>)
    requires ValidLog(l) && found <= Rest(l, f, c0)
    requires |found| <= PageSize(f.limit) ==> found == Rest(l, f, c0)
    ensures var limit := PageSize(f.limit);
      Right(l, f, c0, Listing(Take(found, limit), if |found| > limit then Some(found[limit - 1].key) else None, |found| > limit, None))
  {
    hide Filter, Matching, PageSize, Rest;
    var limit := PageSize(f.limit);
    if |found| > limit {
      FoundEnough(l, f, c0, found, limit);
    }
  }

  /** The loop stops after fifteen pages: what it found is the front, and the cursor starts the rest. */
  lemma {:induction false} CutRight(l: Log, f: Filters, c0: Cursor, found: seq<Item<Event>>, next: Key)
    requires ValidLog(l) && |found| <= PageSize(f.limit) && Past(c0, next)
    requires found + Rest(l, f, After(next)) == Rest(l, f, c0)
    ensures Right(l, f, c0, Listing(found, Some(next), true, Some(next.at)))
  {
    hide Filter, Matching, PageSize, Rest;
  }

  lemma {:induction false} PastIsTransitive(c0: Cursor, c: Cursor, k: Key)
    requires c == c0 || (c.After? && Past(c0, c.key))
    requires Past(c, k)
    ensures Past(c0, k)
  {
  }

  /** With more found than the page holds, the page ends at its last item. */
  lemma {:induction false} FoundEnough(l: Log, f: Filters, c0: Cursor, found: seq<Item<Event>>, limit: nat)
    requires ValidLog(l) && 1 <= limit < |found| && found <= Rest(l, f, c0)
    ensures Take(found, limit) == Take(Rest(l, f, c0), limit)
    ensures Past(c0, found[limit - 1].key) && Rest(l, f, After(found[limit - 1].key)) == Rest(l, f, c0)[limit..]
  {
    hide Filter, Matching;
    ResumesBehind(l, Matching(f), c0, limit - 1);
  }

  // ---------------------------------------------------------------- following the cursors

  /** How many rows of the logs are still past a cursor. */
  ghost function Left(l: Log, c: Cursor): nat {
    |Filter(Everything(l), PastOf(c))|
  }

  lemma {:induction false} FilterNarrows(s: seq<Item<Event>>, p: Item<Event> -> bool, q: Item<Event> -> bool)
    requires forall x :: x in s && p(x) ==> q(x)
    ensures |Filter(s, p)| <= |Filter(s, q)|
    ensures (exists x :: x in s && q(x) && !p(x)) ==> |Filter(s, p)| < |Filter(s, q)|
  {
    if s != [] {
      assert s == [s[0]] + s[1..];
      FilterNarrows(s[1..], p, q);
    }
  }

  /** A key from the logs. */
  ghost predicate FromLog(l: Log, k: Key) {
    exists x :: x in Everything(l) && x.key == k
  }

  lemma {:induction false} AdvancingLeavesLess(l: Log, c: Cursor, k: Key)
    requires FromLog(l, k) && Past(c, k)
    ensures Left(l, After(k)) < Left(l, c)
  {
    hide Filter;
    var x :| x in Everything(l) && x.key == k;
    forall y | y in Everything(l) && PastOf(After(k))(y)
      ensures PastOf(c)(y)
    {
      PastIsTransitive(c, After(k), y.key);
    }
    assert PastOf(c)(x) && !PastOf(After(k))(x);
    FilterNarrows(Everything(l), PastOf(After(k)), PastOf(c));
  }

  lemma {:induction false} PageCursorFromLog(l: Log, f: Filters, c: Cursor, limit: nat)
    requires ValidLog(l) && limit >= 1
    ensures var p := ActivityPage(l, f, c, limit);
      && (p.next.Some? ==> FromLog(l, p.next.value))
      && forall x :: x in p.items ==> FromLog(l, x.key)
  {
    hide Filter, ActivityPage, Queried;
    ActivityPageIsFront(l, f, c, limit);
    var seen := Seen(l, f, c);
    forall x | x in seen
      ensures FromLog(l, x.key)
    {
      FilterMember(Everything(l), Both(Queried(f), PastOf(c)), x);
    }
    if |seen| > limit {
      assert seen[limit - 1] in seen;
    }
  }

  lemma {:induction false} KeptFromLog(l: Log, items: seq<Item<Event>>, keep: Item<Event> -> bool)
    requires forall x :: x in items ==> FromLog(l, x.key)
    ensures forall x :: x in Filter(items, keep) ==> FromLog(l, x.key)
  {
    hide FromLog, Filter;
    forall x | x in Filter(items, keep)
      ensures FromLog(l, x.key)
    {
      FilterMember(items, keep, x);
    }
  }

  lemma {:induction false} ReadingCursorFromLog(l: Log, f: Filters, c: Cursor, matches: seq<Item<Event>>, read: nat)
    requires ValidLog(l) && read < MAX_PAGES_READ && forall x :: x in matches ==> FromLog(l, x.key)
    ensures var r := ReadOn(l, f, c, matches, read); r.next.Some? ==> FromLog(l, r.next.value)
    decreases MAX_PAGES_READ - read
  {
    hide FromLog, Filter, ActivityPage, KeptBy, PageSize;
    var limit := PageSize(f.limit);
    var page := ActivityPage(l, f, c, READ_PAGE);
    var found := matches + Filter(page.items, KeptBy(f));
    PageCursorFromLog(l, f, c, READ_PAGE);
    KeptFromLog(l, page.items, KeptBy(f));
    if page.next.Some? && |found| <= limit && read + 1 < MAX_PAGES_READ {
      ReadingCursorFromLog(l, f, After(page.next.value), found, read + 1);
    }
  }

  /** Every cursor handed out strictly advances: fewer rows are left past it than past the one before. */
  lemma {:induction false} CursorsAdvance(l: Log, f: Filters, c: Cursor)
    requires ValidLog(l)
    ensures var r := ListedFrom(l, f, c); r.next.Some? ==> Past(c, r.next.value) && Left(l, After(r.next.value)) < Left(l, c)
  {
    hide FromLog, Filter, ActivityPage, ReadOn, Rest, Left, PageSize;
    ListingIsRight(l, f, c);
    var r := ListedFrom(l, f, c);
    if Plain(f) {
      PageCursorFromLog(l, f, c, PageSize(f.limit));
    } else {
      ReadingCursorFromLog(l, f, c, [], 0);
    }
    if r.next.Some? {
      AdvancingLeavesLess(l, c, r.next.value);
    }
  }

  /** All the pages a reader sees who keeps following `next` over logs that do not change. */
  ghost function Followed(l: Log, f: Filters, c: Cursor): seq<Item<Event>>
    requires ValidLog(l)
    decreases Left(l, c)
  {
    CursorsAdvance(l, f, c);
    var r := ListedFrom(l, f, c);
    r.items + (if r.next.Some? then Followed(l, f, After(r.next.value)) else [])
  }

  /**
   * Following the cursors from the newest event shows exactly the matching events of the merged
   * feed, each once and in order, whatever the filters and wherever pages were cut short.
   */
  lemma {:induction false} FollowingShowsAll(l: Log, f: Filters, c: Cursor)
    requires ValidLog(l)
    ensures Followed(l, f, c) == Rest(l, f, c)
    ensures c == Newest ==> Followed(l, f, c) == Filter(Everything(l), Matching(f))
    decreases Left(l, c)
  {
    hide Filter, ListedFrom, Left, PageSize, Matching;
    CursorsAdvance(l, f, c);
    ListingIsRight(l, f, c);
    var r := ListedFrom(l, f, c);
    if r.next.Some? {
      FollowingShowsAll(l, f, After(r.next.value));
    }
    if c == Newest {
      FilterSame(Everything(l), Both(Matching(f), PastOf(c)), Matching(f));
    }
  }
}
