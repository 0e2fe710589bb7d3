/**
 * The Notice document: an announcement published by an administrator. The
 * schema bounds the trimmed title and content, restricts priority, type,
 * status and audience to fixed lists, and requires an author. The static
 * query `getActiveNotices` selects the notices that are active and not past
 * their expiry date, ordered by priority name and then newest first.
 */
module NoticeSchema {

  import opened Wrappers
  import opened Text
  import opened Seqs

  datatype NoticePriority = Low | Medium | High | Urgent

  function PriorityName(p: NoticePriority): string {
    match p
    case Low => "low"
    case Medium => "medium"
    case High => "high"
    case Urgent => "urgent"
  }

  /** The enum validator on `priority`. */
  function ParsePriority(s: string): (r: Option<NoticePriority>)
    ensures r.Some? ==> PriorityName(r.value) == s
    ensures forall p :: s == PriorityName(p) ==> r == Some(p)
  {
    if s == "low" then Some(Low)
    else if s == "medium" then Some(Medium)
    else if s == "high" then Some(High)
    else if s == "urgent" then Some(Urgent)
    else None
  }

  datatype NoticeType = Announcement | Schedule | AlertNotice | Maintenance | General

  datatype NoticeStatus = Active | Inactive | Expired

  datatype Audience = All | PublicUsers | Collectors | Admins

  datatype Notice = Notice(
    title: string,
    content: string,
    priority: NoticePriority,
    noticeType: NoticeType,
    createdBy: Option<string>,
    status: NoticeStatus,
    expiryDate: Option<int>,
    targetAudience: Audience,
    createdAt: int)

  const MaxTitle := 100
  const MaxContent := 1000

  const TitlePath := "title"
  const ContentPath := "content"
  const PriorityPath := "priority"
  const CreatedByPath := "createdBy"

  /** Non-empty, trimmed, and at most `max` UTF-16 code units long. */
  predicate TrimmedWithin(s: string, max: nat) {
    s != "" && IsTrimmed(s) && Utf16Length(s) <= max
  }

  /** What a stored notice satisfies. */
  predicate ValidNotice(n: Notice) {
    TrimmedWithin(n.title, MaxTitle) && TrimmedWithin(n.content, MaxContent) && n.createdBy.Some?
  }

  /** The path `path` when its check `failed`, nothing otherwise. */
  function FailedIf(failed: bool, path: string): (r: set<string>)
    ensures r <= {path} && (path in r <==> failed)
  {
    if failed then {path} else {}
  }

  /**
   * `new Notice({title, content, priority, createdBy}).save()`. Title and
   * content are trimmed and must be non-empty and within their limits, the
   * priority must be a listed name and the author must be present; every
   * failing path is named. Type defaults to general, status to active,
   * audience to all, expiry to none.
   */
  function NewNotice(title: string, content: string, priority: string,
                     createdBy: Option<string>, now: int)
    : (r: Result<Notice, set<string>>)
    ensures r.Ok? <==> && TrimmedWithin(Trim(title), MaxTitle)
                       && TrimmedWithin(Trim(content), MaxContent)
                       && ParsePriority(priority).Some? && createdBy.Some?
    ensures r.Err? ==> (TitlePath in r.error <==> !TrimmedWithin(Trim(title), MaxTitle))
    ensures r.Err? ==> (ContentPath in r.error <==> !TrimmedWithin(Trim(content), MaxContent))
    ensures r.Err? ==> (PriorityPath in r.error <==> ParsePriority(priority).None?)
    ensures r.Err? ==> (CreatedByPath in r.error <==> createdBy.None?)
    ensures r.Ok? ==> && r.value.title == Trim(title) && r.value.content == Trim(content)
                      && PriorityName(r.value.priority) == priority
                      && r.value.createdBy == createdBy
                      && r.value.noticeType == General && r.value.status == Active
                      && r.value.expiryDate == None && r.value.targetAudience == All
                      && r.value.createdAt == now
  {
    var t := Trim(title);
    var c := Trim(content);
    var p := ParsePriority(priority);
    var tOk := TrimmedWithin(t, MaxTitle);
    var cOk := TrimmedWithin(c, MaxContent);
    if tOk && cOk && p.Some? && createdBy.Some? then
      Ok(Notice(t, c, p.value, General, createdBy, Active, None, All, now))
    else
      Err(FailedIf(!tOk, TitlePath) + FailedIf(!cOk, ContentPath)
          + FailedIf(p.None?, PriorityPath) + FailedIf(createdBy.None?, CreatedByPath))
  }

  /** Every notice that `save` accepts is a valid stored notice. */
  lemma {:induction false} NewNoticeIsValid(title: string, content: string, priority: string,
                         createdBy: Option<string>, now: int)
    requires NewNotice(title, content, priority, createdBy, now).Ok?
    ensures ValidNotice(NewNotice(title, content, priority, createdBy, now).value)
  {
  }

  /** Without an author a notice is never stored. */
  lemma {:induction false} NoAuthorRefused(title: string, content: string, priority: string, now: int)
    ensures NewNotice(title, content, priority, None, now).Err?
    ensures CreatedByPath in NewNotice(title, content, priority, None, now).error
  {
  }

  /** A title of 60 emoji is 120 UTF-16 code units long, over the limit of 100. */
  lemma {:induction false} EmojiTitleTooLong(content: string, priority: string, createdBy: Option<string>, now: int)
    ensures var t := seq(60, _ => '\U{1F600}');
            && |t| <= MaxTitle
            && NewNotice(t, content, priority, createdBy, now).Err?
            && TitlePath in NewNotice(t, content, priority, createdBy, now).error
  {
    var t := seq(60, _ => '\U{1F600}');
    TrimFixesExactlyTrimmed(t);
    Utf16LengthAllAstral(t);
  }

  /** Strict lexicographic order on strings, the order a database sorts string fields in. */
  predicate LexLess(a: string, b: string) {
    if a == [] then b != []
    else if b == [] then false
    else a[0] < b[0] || (a[0] == b[0] && LexLess(a[1..], b[1..]))
  }

  lemma {:induction false} LexLessIrreflexive(a: string)
    ensures !LexLess(a, a)
  {
    if a != [] {
      LexLessIrreflexive(a[1..]);
    }
  }

  /**
   * Position of a priority in ascending string order of its name:
   * "high" < "low" < "medium" < "urgent".
   */
  function PriorityRank(p: NoticePriority): (r: int)
    ensures 0 <= r < 4
  {
    match p
    case High => 0
    case Low => 1
    case Medium => 2
    case Urgent => 3
  }

  /** The rank is exactly the string order of the priority names. */
  lemma {:induction false} PriorityRankIsNameOrder(p: NoticePriority, q: NoticePriority)
    ensures PriorityRank(p) < PriorityRank(q) <==> LexLess(PriorityName(p), PriorityName(q))
  {
    if p == q {
      LexLessIrreflexive(PriorityName(p));
    } else {
      var a, b := PriorityName(p), PriorityName(q);
      assert a[0] != b[0];
      assert LexLess(a, b) <==> a[0] < b[0];
    }
  }

  /** `status: 'active'` and (no expiry date, or an expiry date later than now). */
  predicate IsActiveAt(n: Notice, now: int) {
    n.status == Active && (n.expiryDate.None? || n.expiryDate.value > now)
  }

  /** `.sort({priority: 1, createdAt: -1})` as a "larger key first" order. */
  function NoticeOrder(n: Notice): Key {
    Key(-PriorityRank(n.priority), n.createdAt)
  }

  /** `Notice.getActiveNotices()` evaluated at time `now`. */
  function ActiveNotices(notices: seq<Notice>, now: int): (r: seq<Notice>)
    ensures forall n :: n in r <==> n in notices && IsActiveAt(n, now)
    ensures SortedDesc(r, NoticeOrder)
    ensures forall i :: 0 <= i < |r| ==> IsActiveAt(r[i], now)
  {
    var kept := Filter(notices, n => IsActiveAt(n, now));
    var r := SortDesc(kept, NoticeOrder);
    assert forall n :: n in r <==> n in kept by {
      forall n ensures n in r <==> n in kept {
        assert n in r <==> n in multiset(r);
        assert n in kept <==> n in multiset(kept);
      }
    }
    r
  }

  /**
   * Any earlier result comes first in query order: a strictly lower name,
   * or the same priority and a creation time no earlier.
   */
  lemma {:induction false} ActiveNoticesOrdered(notices: seq<Notice>, now: int, i: int, j: int)
    requires 0 <= i < j < |ActiveNotices(notices, now)|
    ensures var r := ActiveNotices(notices, now);
            LexLess(PriorityName(r[i].priority), PriorityName(r[j].priority))
            || (r[i].priority == r[j].priority && r[i].createdAt >= r[j].createdAt)
  {
    var r := ActiveNotices(notices, now);
    assert AtLeast(NoticeOrder(r[i]), NoticeOrder(r[j]));
    PriorityRankIsNameOrder(r[i].priority, r[j].priority);
  }

  /** The query loses no copy of an active notice and adds none. */
  lemma {:induction false} ActiveNoticesCounts(notices: seq<Notice>, now: int, n: Notice)
    ensures multiset(ActiveNotices(notices, now))[n] ==
            if IsActiveAt(n, now) then multiset(notices)[n] else 0
  {
    FilterMultiset(notices, m => IsActiveAt(m, now), n);
  }

  /** An active notice whose expiry date has passed is not returned. */
  lemma {:induction false} ExpiredNoticeExcluded(notices: seq<Notice>, now: int, n: Notice)
    requires n.expiryDate.Some? && n.expiryDate.value <= now
    ensures n !in ActiveNotices(notices, now)
  {
  }
}
