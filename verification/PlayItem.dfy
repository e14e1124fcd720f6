/** One entry of the URL FIFO: its state, and its alternative URLs with the one selected.
    URLs are held by value in the source, so they are fields of the item here. */
module PlayItem {
  import opened Base

  datatype ItemState =
    | InQueue
    | AboutToActivate
    | ActiveHalfPlaying
    | ActiveNowPlaying
    | AboutToPhaseOut
    | AboutToBeSkipped

  datatype UrlState =
    | KnownDirectUrl
    | KnownAirableLink
    | ResolvingLink
    | KnownResolvedUrl
    | Broken

  /** Why a stream has failed. */
  datatype Reason =
    | UnknownReason | QueueEmpty | AlreadyStopped | PhysicalMediaIo | NetIo | UrlMissing | Protocol | Authentication
    | DoesNotExist | WrongType | PermissionDenied | MissingCodec | WrongStreamFormat | BrokenStream | Encrypted
    | DecryptionNotSupported

  /** When a resolved URI expires: one of the extreme time points, or a time. */
  datatype Expiry = Always | At(time: int) | Never

  datatype Url = Url(direct: string, original: string, isLink: bool, expiry: Expiry)

  function DirectUrl(translated: string, original: string): Url {
    Url(translated, original, false, Never)
  }

  function LinkUrl(original: string): Url {
    Url("", original, true, Always)
  }

  function StreamUri(u: Url): string {
    if u.isLink then u.direct else if u.direct == "" then u.original else u.direct
  }

  function SetResolvedUri(u: Url, uri: string, valid: nat, now: int): Url {
    if u.isLink then u.(direct := uri, expiry := At(now + valid)) else u
  }

  predicate Before(now: int, e: Expiry) {
    e == Never || (e.At? && now < e.time)
  }

  predicate Expired(u: Url, now: int) {
    u.isLink && u.direct != "" && !Before(now, u.expiry)
  }

  function ClearExpiredUri(u: Url, now: int): Url {
    if Expired(u, now) then u.(direct := "", expiry := Always) else u
  }

  /** The call which asks for the selected link: there is none, its answer is waited for, or it is over, because
      the resolver did not take it or because its answer has been processed for another item. Only the answer
      ends the last two, so a call which is over stays where it is. */
  datatype Resolver = NotAsked | Pending | Over

  /** What the item looks like from outside. The number counts accepted pushes; it is
      not in the source and only serves to tell items with equal IDs apart. */
  datatype ItemData = ItemData(
    num: nat, id: nat, state: ItemState, urls: seq<Url>, selected: nat,
    resolver: Resolver, startRequired: bool, failed: bool, prefail: Reason)

  predicate ValidItem(it: ItemData) {
    it.selected < |it.urls| || (it.urls == [] && it.selected == 0)
  }

  function NewItem(num: nat, id: nat, urls: seq<Url>): ItemData {
    ItemData(num, id, InQueue, urls, 0, NotAsked, false, false, UnknownReason)
  }

  /** To the source, a link is being resolved as long as there is a call for it. */
  predicate IsResolving(it: ItemData) {
    it.resolver != NotAsked
  }

  /** Whether there is a selected URL. Without URLs there is none, and the source has no
      defined answers then, except for the URL state. */
  predicate HasUrl(it: ItemData) {
    it.selected < |it.urls|
  }

  function SelectedUrlState(it: ItemData): UrlState {
    if !HasUrl(it) then Broken
    else if IsResolving(it) then ResolvingLink
    else
      var u := it.urls[it.selected];
      if StreamUri(u) == "" then if u.isLink then KnownAirableLink else Broken
      else if u.isLink then KnownResolvedUrl else KnownDirectUrl
  }

  predicate KnowsUri(it: ItemData) {
    SelectedUrlState(it) in {KnownDirectUrl, KnownResolvedUrl}
  }

  /** The URL to be handed to GStreamer. */
  function UrlForPlaying(it: ItemData): string {
    if !HasUrl(it) then "" else StreamUri(it.urls[it.selected])
  }

  predicate HasPrefailed(it: ItemData) {
    it.prefail != UnknownReason
  }

  predicate HasMoreUrls(it: ItemData) {
    it.selected + 1 < |it.urls|
  }

  /** Either give up the expired URI of the selected link, or advance to the next URL. */
  function SelectNextUrl(it: ItemData, now: int): (ItemData, bool) {
    if !HasUrl(it) then (it, false)
    else
      var u := it.urls[it.selected];
      if Expired(u, now) then (it.(urls := it.urls[it.selected := ClearExpiredUri(u, now)]), true)
      else if HasMoreUrls(it) then (it.(selected := it.selected + 1), true)
      else (it, false)
  }

  /** An empty URI stands for every way a link may fail to resolve. */
  function ResolverFinish(it: ItemData, uri: string, valid: nat, now: int): ItemData {
    var lasting := if uri == "" then 0 else valid;
    if !HasUrl(it) then it.(resolver := NotAsked)
    else it.(urls := it.urls[it.selected := SetResolvedUri(it.urls[it.selected], uri, lasting, now)],
             resolver := NotAsked)
  }

  datatype ResolverResult = Resolved | HaveMoreUrls | Failed

  datatype StartRequired = NotRequired | StartNow | WhenReady

  function StartRequiredFor(s: UrlState): StartRequired {
    match s
    case KnownDirectUrl => StartNow
    case KnownResolvedUrl => StartNow
    case ResolvingLink => WhenReady
    case KnownAirableLink => NotRequired
    case Broken => NotRequired
  }

  /** A link whose URI has run out is like one which has just been sent; all other URLs stay as they are. */
  lemma ExpiredIsAsSent(u: Url, now: int)
    ensures ClearExpiredUri(u, now) ==
      if u.isLink && u.direct != "" && (u.expiry == Always || (u.expiry.At? && u.expiry.time <= now))
      then LinkUrl(u.original) else u
  {
  }

  /** The answer for a link ends the call for it. The URI is good for the time told, from now on. */
  lemma AnswerEndsCall(it: ItemData, uri: string, valid: nat, now: int, later: int)
    ensures var r := ResolverFinish(it, uri, valid, now);
      && r == it.(urls := r.urls, resolver := NotAsked) && |r.urls| == |it.urls|
      && (HasUrl(it) && it.urls[it.selected].isLink ==>
            && UrlForPlaying(r) == uri
            && (Expired(r.urls[r.selected], later) <==> uri != "" && now + valid <= later))
  {
  }

  /** A start is possible now if the URI is known, and later if the link is being resolved. */
  lemma StartDependsOnUri(it: ItemData)
    ensures var r := StartRequiredFor(SelectedUrlState(it));
      && (r == StartNow <==> !IsResolving(it) && UrlForPlaying(it) != "")
      && (r == WhenReady <==> HasUrl(it) && IsResolving(it))
  {
  }

  class Item {
    ghost const num: nat
    const id: nat
    var state: ItemState
    var urls: seq<Url>
    var selected: nat
    var resolver: Resolver
    var startRequired: bool
    var failed: bool
    var prefail: Reason

    ghost function View(): ItemData
      reads this
    {
      ItemData(num, id, state, urls, selected, resolver, startRequired, failed, prefail)
    }

    ghost predicate Valid()
      reads this
    {
      ValidItem(View())
    }

    constructor (ghost num: nat, id: nat, urls: seq<Url>)
      ensures Valid() && View() == NewItem(num, id, urls)
    {
      this.num, this.id, this.urls := num, id, urls;
      state, selected, resolver, startRequired, failed, prefail := InQueue, 0, NotAsked, false, false, UnknownReason;
    }

    method SetState(s: ItemState)
      modifies this`state
      ensures View() == old(View()).(state := s)
    {
      state := s;
    }

    /** The first reason detected beforehand is kept. */
    method Prefail(reason: Reason) returns (first: bool)
      requires reason != UnknownReason
      modifies this`prefail
      ensures first == !HasPrefailed(old(View())) && HasPrefailed(View())
      ensures View() == old(View()).(prefail := if first then reason else old(prefail))
    {
      if prefail != UnknownReason {
        return false;
      }
      prefail := reason;
      first := true;
    }

    method Fail() returns (first: bool)
      modifies this`failed
      ensures View() == old(View()).(failed := true) && first == !old(failed)
    {
      if failed {
        return false;
      }
      failed := true;
      first := true;
    }

    method GetSelectedUrlState() returns (s: UrlState)
      requires Valid()
      ensures s == SelectedUrlState(View())
    {
      if urls == [] {
        return Broken;
      }
      if resolver != NotAsked {
        return ResolvingLink;
      }
      var u := urls[selected];
      if StreamUri(u) == "" {
        s := if u.isLink then KnownAirableLink else Broken;
      } else {
        s := if u.isLink then KnownResolvedUrl else KnownDirectUrl;
      }
    }

    method GetUrlForPlaying() returns (uri: string)
      requires Valid()
      ensures uri == UrlForPlaying(View())
    {
      uri := if urls == [] then "" else StreamUri(urls[selected]);
    }

    /** Returns the flag and clears it. */
    method IsPipelineStartRequired() returns (required: bool)
      modifies this`startRequired
      ensures View() == old(View()).(startRequired := false) && required == old(startRequired)
    {
      required := startRequired;
      startRequired := false;
    }

    method PipelineStartRequiredWhenReady() returns (r: StartRequired)
      requires Valid()
      modifies this`startRequired
      ensures Valid() && View() == old(View()).(startRequired := true)
      ensures r == StartRequiredFor(SelectedUrlState(View()))
    {
      startRequired := true;
      var s := GetSelectedUrlState();
      match s
      case KnownDirectUrl => r := StartNow;
      case KnownResolvedUrl => r := StartNow;
      case ResolvingLink => r := WhenReady;
      case KnownAirableLink => r := NotRequired;
      case Broken => r := NotRequired;
    }

    method ClearExpired(now: int) returns (cleared: bool)
      requires selected < |urls|
      modifies this`urls
      ensures cleared == Expired(old(urls)[selected], now)
      ensures urls == old(urls)[selected := ClearExpiredUri(old(urls)[selected], now)]
    {
      var u := urls[selected];
      if !u.isLink || u.direct == "" || Before(now, u.expiry) {
        return false;
      }
      urls := urls[selected := u.(direct := "", expiry := Always)];
      cleared := true;
    }

    method SelectNextIndex() returns (ok: bool)
      modifies this`selected
      ensures ok == HasMoreUrls(old(View()))
      ensures selected == old(selected) + if ok then 1 else 0
    {
      if selected + 1 < |urls| {
        selected := selected + 1;
        return true;
      }
      ok := false;
    }

    method SelectNext(now: int) returns (ok: bool)
      requires Valid()
      modifies this`urls, this`selected
      ensures Valid() && (View(), ok) == SelectNextUrl(old(View()), now)
    {
      if urls == [] {
        return false;
      }
      var cleared := ClearExpired(now);
      if cleared {
        return true;
      }
      assert urls == old(urls);
      ok := SelectNextIndex();
    }

    method FinishResolver(uri: string, valid: nat, now: int) returns (r: ResolverResult)
      requires Valid()
      modifies this`urls, this`resolver
      ensures Valid() && View() == ResolverFinish(old(View()), uri, valid, now)
      ensures r == if uri != "" then Resolved else if HasMoreUrls(View()) then HaveMoreUrls else Failed
    {
      if urls != [] {
        urls := urls[selected := SetResolvedUri(urls[selected], uri, if uri == "" then 0 else valid, now)];
      }
      resolver := NotAsked;
      r := if uri != "" then Resolved else if selected + 1 < |urls| then HaveMoreUrls else Failed;
    }
  }

  // ----- building the URLs of an item -----

  /** One URL as sent by the client. A direct URL may have no translation to a regular URL. */
  datatype Sent = Sent(uri: string, isLink: bool, translated: Option<string>)

  predicate Usable(s: Sent) {
    if s.isLink then s.uri != "" else s.translated.Some?
  }

  function UrlOf(s: Sent): Url
    requires Usable(s)
  {
    if s.isLink then LinkUrl(s.uri) else DirectUrl(s.translated.value, s.uri)
  }

  function UrlsOf(sent: seq<Sent>): (urls: seq<Url>)
    ensures AllUnresolvedFrom(urls, 0)
    ensures |urls| <= |sent|
  {
    if sent == [] then []
    else
      var last := sent[|sent| - 1];
      UrlsOf(sent[..|sent| - 1]) + if Usable(last) then [UrlOf(last)] else []
  }

  /** The positions of the usable ones among the first `n` sent URLs. */
  function UsableAt(sent: seq<Sent>, n: nat): (at: seq<nat>)
    requires n <= |sent|
    ensures forall i :: 0 <= i < |at| ==> at[i] < n && (sent[at[i]].isLink || sent[at[i]].translated.Some?)
  {
    if n == 0 then []
    else
      var s := sent[n - 1];
      UsableAt(sent, n - 1) + if (s.isLink && s.uri != "") || (!s.isLink && s.translated.Some?) then [n - 1] else []
  }

  /** What a URL which is kept yields: nothing before the link is resolved, or the translation, or else the URL
      itself. */
  predicate YieldsAsSent(u: Url, s: Sent) {
    && u.original == s.uri && u.isLink == s.isLink
    && (s.isLink ==> StreamUri(u) == "")
    && (!s.isLink && s.translated.Some? ==>
          StreamUri(u) == if s.translated.value == "" then s.uri else s.translated.value)
  }

  /** Links are kept unless they are empty, other URLs exactly if they have a translation. They stay in their order, and
      each one yields what was sent. */
  lemma UrlsAreAsSent(sent: seq<Sent>)
    ensures var urls, at := UrlsOf(sent), UsableAt(sent, |sent|);
      && |urls| == |at| && (forall i, j :: 0 <= i < j < |at| ==> at[i] < at[j])
      && (forall n :: 0 <= n < |sent| ==>
            (n in at <==> (sent[n].isLink && sent[n].uri != "") || (!sent[n].isLink && sent[n].translated.Some?)))
      && forall i :: 0 <= i < |urls| ==> YieldsAsSent(urls[i], sent[at[i]])
  {
    assert sent[..|sent|] == sent;
    UsableAtExactly(sent, |sent|);
    UrlsUpTo(sent, |sent|);
    hide YieldsAsSent, UrlsOf, UsableAt;
  }

  lemma {:induction false} UsableAtExactly(sent: seq<Sent>, n: nat)
    requires n <= |sent|
    ensures var at := UsableAt(sent, n);
      && (forall i, j :: 0 <= i < j < |at| ==> at[i] < at[j])
      && (forall k :: 0 <= k < n ==>
            (k in at <==> (sent[k].isLink && sent[k].uri != "") || (!sent[k].isLink && sent[k].translated.Some?)))
  {
    if n > 0 {
      UsableAtExactly(sent, n - 1);
    }
  }

  lemma {:induction false} UrlsUpTo(sent: seq<Sent>, n: nat)
    requires n <= |sent|
    ensures var urls, at := UrlsOf(sent[..n]), UsableAt(sent, n);
      |urls| == |at| && forall i :: 0 <= i < |urls| ==> YieldsAsSent(urls[i], sent[at[i]])
  {
    if n > 0 {
      UrlsUpTo(sent, n - 1);
      assert sent[..n][..n - 1] == sent[..n - 1];
      if Usable(sent[n - 1]) {
        assert YieldsAsSent(UrlOf(sent[n - 1]), sent[n - 1]);
      }
      hide YieldsAsSent;
    }
  }

  /** Links from index `from` on have not been resolved, they must be asked for. */
  ghost predicate AllUnresolvedFrom(urls: seq<Url>, from: nat) {
    forall i :: from <= i < |urls| && urls[i].isLink ==> urls[i].direct == ""
  }

  /** Empty links and URLs which cannot be translated are skipped. */
  method BuildUrls(sent: seq<Sent>) returns (urls: seq<Url>)
    ensures urls == UrlsOf(sent)
  {
    urls := [];
    for i := 0 to |sent|
      invariant urls == UrlsOf(sent[..i])
    {
      var s := sent[i];
      assert sent[..i + 1][..i] == sent[..i];
      if s.isLink {
        if s.uri != "" {
          urls := urls + [LinkUrl(s.uri)];
        }
      } else if s.translated.Some? {
        urls := urls + [DirectUrl(s.translated.value, s.uri)];
      }
    }
    assert sent[..|sent|] == sent;
  }
}
