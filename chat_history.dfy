/** The chat-history list (components/ChatHistory.tsx): what a row shows,
    the message a failed load turns into, and the pager behind `load`, which
    fetches pages of 25 chats from an offset and appends them (or, on
    refresh, starts over from offset 0). `fetchPage` is external: its
    settlement is a parameter, and the one thing it does to the data, the
    normalisation of every image URL, is part of the model. */
module ChatHistory {
  import opened Text
  import opened UriEncoding
  import opened S3Url

  /** One chat of `/chat/history`; a field that is missing or null is `None`. */
  datatype ChatItem = ChatItem(
    scanId: string,
    scanTitle: Option<string>,
    artworkTitle: Option<string>,
    artworkImageUrl: Option<string>,
    lastMessageAt: Option<string>,
    createdAt: string)

  const Untitled := "Untitled"

  /** `scan_title || artwork_title || "Untitled"`. */
  function RowTitle(item: ChatItem): (t: string)
    ensures t != []
    ensures Truthy(item.scanTitle) ==> t == item.scanTitle.value
    ensures !Truthy(item.scanTitle) && Truthy(item.artworkTitle) ==> t == item.artworkTitle.value
    ensures !Truthy(item.scanTitle) && !Truthy(item.artworkTitle) ==> t == Untitled
  {
    if Truthy(item.scanTitle) then item.scanTitle.value
    else if Truthy(item.artworkTitle) then item.artworkTitle.value
    else Untitled
  }

  /** The timestamp handed to `formatWhen`: `last_message_at || created_at`. */
  function WhenSource(item: ChatItem): (t: string)
    ensures Truthy(item.lastMessageAt) ==> t == item.lastMessageAt.value
    ensures !Truthy(item.lastMessageAt) ==> t == item.createdAt
    ensures t == "" <==> !Truthy(item.lastMessageAt) && item.createdAt == ""
    ensures Some(t) == item.lastMessageAt || t == item.createdAt
  {
    if Truthy(item.lastMessageAt) then item.lastMessageAt.value else item.createdAt
  }

  /** A row never shows an empty title, and a title that is set wins over
      every fallback. */
  lemma RowTitleFallbacks(item: ChatItem)
    ensures RowTitle(item) == Untitled <==>
              (!Truthy(item.scanTitle) || item.scanTitle.value == Untitled) &&
              (Truthy(item.scanTitle) || !Truthy(item.artworkTitle) || item.artworkTitle.value == Untitled)
  {
  }

  // ---------------------------------------------------------------------
  // Error text.

  const NetworkFailed := "Network request failed"
  const TypeErrorName := "TypeError"
  const CannotReach := "Cannot reach API. " + "Check tunnel/URL " + "(HTTPS) or network."

  /** The message shown for a failed load: transport failures get a fixed
      hint, anything else is shown as it is. */
  function Friendly(msg: string): (r: string)
    ensures r == CannotReach || r == msg
    ensures Contains(msg, NetworkFailed) || Contains(msg, TypeErrorName) ==> r == CannotReach
    ensures !Contains(msg, NetworkFailed) && !Contains(msg, TypeErrorName) ==> r == msg
  {
    if Contains(msg, NetworkFailed) || Contains(msg, TypeErrorName) then CannotReach else msg
  }

  /** `sub` cannot occur where one of its characters never appears. */
  lemma HintLacks(c: char)
    requires c == 'q' || c == 'y'
    ensures Lacks(CannotReach, c)
  {
    var a, b, d := "Cannot reach API. ", "Check tunnel/URL ", "(HTTPS) or network.";
    assert Lacks(a, c) && Lacks(b, c) && Lacks(d, c);
    LacksConcat(a, b, c);
    LacksConcat(a + b, d, c);
  }

  /** The hint is itself no transport failure, so mapping a message twice
      gives what mapping it once gives. */
  lemma FriendlyIdempotent(msg: string)
    ensures Friendly(Friendly(msg)) == Friendly(msg)
  {
    HintIsNoTransportFailure();
  }

  lemma HintIsNoTransportFailure()
    ensures !Contains(CannotReach, NetworkFailed) && !Contains(CannotReach, TypeErrorName)
  {
    HintLacksNetworkFailed();
    HintLacksTypeError();
  }

  lemma HintLacksNetworkFailed()
    ensures !Contains(CannotReach, NetworkFailed)
  {
    HintLacks('q');
    MissingCharNotContained(CannotReach, NetworkFailed, 10);
  }

  lemma HintLacksTypeError()
    ensures !Contains(CannotReach, TypeErrorName)
  {
    HintLacks('y');
    MissingCharNotContained(CannotReach, TypeErrorName, 1);
  }

  // ---------------------------------------------------------------------
  // The pager.

  /** `limit=25` in the request, and the length of a full page. */
  const PageSize := 25

  /** How the awaited `fetchPage` settled: the page as the server sent it,
      or what it threw, as its `message` (empty when it has none) and its
      `String(e)` form, which for an `Error` with no message is its name. */
  datatype PageOutcome = Page(items: seq<ChatItem>) | Failed(message: string, asString: string)

  /** `e?.message || String(e)`: the text a failed load shows before the
      hint check. */
  function ThrownText(message: string, asString: string): (t: string)
    ensures t == "" <==> message == "" && asString == ""
    ensures message != "" ==> t == message
  {
    if message != "" then message else asString
  }

  /** The error text of a failed load. */
  function FailureText(outcome: PageOutcome): string
    requires outcome.Failed?
  {
    Friendly(ThrownText(outcome.message, outcome.asString))
  }

  /** `fetchPage`'s `data.map(...)`: every image URL normalised, nothing else
      changed. */
  function NormalizeRows(items: seq<ChatItem>): (r: seq<ChatItem>)
    ensures |r| == |items|
    ensures forall i :: 0 <= i < |r| ==>
              r[i].artworkImageUrl == NormalizeS3Url(items[i].artworkImageUrl) &&
              r[i] == items[i].(artworkImageUrl := r[i].artworkImageUrl)
  {
    if items == [] then []
    else [items[0].(artworkImageUrl := NormalizeS3Url(items[0].artworkImageUrl))] + NormalizeRows(items[1..])
  }

  class ChatPager {
    var rows: seq<ChatItem>
    var offset: nat
    var hasMore: bool
    var loading: bool
    var err: Option<string>

    /** The next page starts where the rows end. */
    ghost predicate Valid()
      reads this
    {
      offset == |rows|
    }

    constructor ()
      ensures Valid()
      ensures rows == [] && offset == 0 && hasMore && !loading && err == None
    {
      rows, offset, hasMore, loading, err := [], 0, true, false, None;
    }

    /** The part of `load(append)` before the await. It does nothing while a
        load is running, or when appending with no more pages; otherwise it
        sets `loading`, clears the error and asks for the page at the current
        offset (append) or at 0 (refresh). */
    method BeginLoad(append: bool) returns (started: bool, pageOffset: nat)
      requires Valid()
      modifies this
      ensures Valid()
      ensures started <==> !old(loading) && (!append || old(hasMore))
      ensures !started ==> loading == old(loading) && err == old(err)
      ensures started ==> loading && err == None
      ensures started ==> pageOffset == if append then old(offset) else 0
      ensures rows == old(rows) && offset == old(offset) && hasMore == old(hasMore)
    {
      if loading || (append && !hasMore) {
        return false, 0;
      }
      loading := true;
      err := None;
      started := true;
      pageOffset := if append then offset else 0;
    }

    /** The part of `load(append)` after the await. A page replaces the rows
        (refresh) or extends them (append), the offset follows, and more pages
        are expected exactly when this one was full; a failure keeps the rows,
        the offset and `hasMore` and sets the error text; `loading` ends false
        either way. */
    method FinishLoad(append: bool, outcome: PageOutcome)
      requires Valid()
      modifies this
      ensures Valid()
      ensures !loading
      ensures outcome.Page? ==>
                var page := NormalizeRows(outcome.items);
                rows == (if append then old(rows) + page else page) &&
                offset == (if append then old(offset) + |page| else |page|) &&
                hasMore == (|page| == PageSize) && err == old(err)
      ensures outcome.Failed? ==>
                rows == old(rows) && offset == old(offset) && hasMore == old(hasMore) &&
                err == Some(FailureText(outcome))
    {
      match outcome {
        case Page(items) =>
          var page := NormalizeRows(items);
          rows := if append then rows + page else page;
          offset := if append then offset + |page| else |page|;
          hasMore := |page| == PageSize;
        case Failed(message, asString) =>
          err := Some(Friendly(ThrownText(message, asString)));
      }
      loading := false;
    }

    /** `load(append)` run to completion, with `fetchPage` settling as
        `outcome` when the guard lets the load start. */
    method Load(append: bool, outcome: PageOutcome) returns (started: bool, pageOffset: nat)
      requires Valid()
      modifies this
      ensures Valid()
      ensures started <==> !old(loading) && (!append || old(hasMore))
      ensures !started ==> rows == old(rows) && offset == old(offset) && hasMore == old(hasMore) &&
                           loading == old(loading) && err == old(err)
      ensures started ==> !loading && pageOffset == (if append then old(offset) else 0)
      ensures started && outcome.Page? ==>
                rows == (if append then old(rows) else []) + NormalizeRows(outcome.items) &&
                hasMore == (|outcome.items| == PageSize) && err == None
      ensures started && outcome.Failed? ==>
                rows == old(rows) && offset == old(offset) && hasMore == old(hasMore) &&
                err == Some(FailureText(outcome))
    {
      started, pageOffset := BeginLoad(append);
      if started {
        FinishLoad(append, outcome);
        if outcome.Page? {
          assert [] + NormalizeRows(outcome.items) == NormalizeRows(outcome.items);
        }
      }
    }

    /** `onEndReached`: asks for the next page only when no load is running
        and more pages are expected, the same test `load(true)` makes. */
    method OnEndReached(outcome: PageOutcome) returns (started: bool, pageOffset: nat)
      requires Valid()
      modifies this
      ensures Valid()
      ensures started <==> !old(loading) && old(hasMore)
      ensures !started ==> rows == old(rows) && hasMore == old(hasMore) &&
                           loading == old(loading) && err == old(err)
      ensures started ==> pageOffset == old(|rows|) && !loading
      ensures started && outcome.Page? ==>
                rows == old(rows) + NormalizeRows(outcome.items) &&
                hasMore == (|outcome.items| == PageSize) && err == None
      ensures started && outcome.Failed? ==>
                rows == old(rows) && hasMore == old(hasMore) && err == Some(FailureText(outcome))
    {
      if !loading && hasMore {
        started, pageOffset := Load(true, outcome);
      } else {
        started, pageOffset := false, 0;
      }
    }
  }

  /** Refresh, a full page, then a short page: the rows are the two pages in
      order, the offset counts them, and no third page is asked for. */
  method PagingScenario(first: seq<ChatItem>, second: seq<ChatItem>)
    requires |first| == PageSize && |second| < PageSize
  {
    var pager := new ChatPager();
    var started, at := pager.Load(false, Page(first));
    assert started && at == 0 && pager.hasMore;
    started, at := pager.OnEndReached(Page(second));
    assert started && at == PageSize;
    assert pager.rows == NormalizeRows(first) + NormalizeRows(second);
    assert pager.offset == |first| + |second| && !pager.hasMore;
    started, at := pager.OnEndReached(Page(first));
    assert !started && pager.offset == |first| + |second|;
  }

  // ---------------------------------------------------------------------
  // The row image.

  /** The image URL `ChatRow` renders, as written: it normalises the URL
      that `fetchPage` has already normalised. */
  function RowImageAsWritten(item: ChatItem): Option<string> {
    NormalizeS3Url(item.artworkImageUrl)
  }

  /** The image URL a row is evidently meant to render: the one `fetchPage`
      produced, used as it is. */
  function RowImage(item: ChatItem): Option<string> {
    item.artworkImageUrl
  }

  /** As written, the image of a fetched row is the raw URL normalised twice:
      an S3 key is percent-encoded twice, and the row differs from what
      `fetchPage` produced exactly when the key has a character `encodeURI`
      escapes. */
  lemma RowImageEncodesKeyTwice(item: ChatItem, p: Parts)
    requires Admissible(p) && !("s3" <= p.region)
    requires NormalizeS3Url(item.artworkImageUrl) == Some(Canonical(p))
    ensures RowImageAsWritten(NormalizeRows([item])[0]) ==
              Some(Canonical(Parts(p.bucket, p.region, EncodeUri(p.key))))
    ensures RowImageAsWritten(NormalizeRows([item])[0]) == RowImage(NormalizeRows([item])[0]) <==>
              AllUnescaped(p.key)
  {
    NormalizeTwice(p);
    NormalizeTwiceFixedIff(p);
  }

  /** With the corrected row the key of a path-style or virtual-hosted URL is
      encoded exactly once. */
  lemma RowImageEncodesKeyOnce(item: ChatItem, sep: char, p: Parts)
    requires IsSep(sep) && Admissible(p) && !("s3" <= p.region)
    requires item.artworkImageUrl == Some(PathStyleUrl(sep, p)) ||
             (item.artworkImageUrl == Some(VhostUrl(sep, p)) && (sep == '.' || p.bucket != "s3"))
    ensures RowImage(NormalizeRows([item])[0]) == Some(Canonical(p))
  {
    if item.artworkImageUrl == Some(PathStyleUrl(sep, p)) {
      NormalizePathStyle(sep, p);
    } else {
      NormalizeVhostStyle(sep, p);
    }
  }

  /** A key with a space: `a b` becomes `a%20b` in the list data and
      `a%2520b` in the rendered row. */
  lemma SpaceInKeyEncodedTwice()
    ensures EncodeUri("a b") == "a%20b"
    ensures EncodeUri(EncodeUri("a b")) == "a%2520b"
  {
    EncodeSpaceKey();
    EncodeEncodedSpaceKey();
  }

  lemma EncodeSpaceKey()
    ensures EncodeUri("a b") == "a%20b"
  {
    assert Utf8(' ') == [32];
    assert EncodeChar(' ') == "%20";
    assert EncodeUri("b") == "b";
    assert EncodeUri(" b") == "%20" + "b";
    assert EncodeUri("a b") == "a" + "%20b";
  }

  lemma EncodeEncodedSpaceKey()
    ensures EncodeUri("a%20b") == "a%2520b"
  {
    assert Utf8('%') == [37];
    assert EncodeChar('%') == "%25";
    assert EncodeUri("b") == "b";
    assert EncodeUri("0b") == "0" + "b";
    assert EncodeUri("20b") == "2" + "0b";
    assert EncodeUri("%20b") == "%25" + "20b";
    assert EncodeUri("a%20b") == "a" + "%2520b";
  }
}
