/** Fetching an RSS document and turning the parsed XML tree into a feed
    (src/rss.ts). The network call and the XML parser are outside the model:
    `FetchOutcome` is what they delivered. */
module Rss {
  import opened Wrappers
  import opened Js
  import opened Errors

  /** What the request produced: the transport failed, or a response arrived
      with a status and the tree the XML parser builds from its body. */
  datatype FetchOutcome =
    | TransportError(reason: string)
    | Response(status: nat, document: map<string, JsValue>)

  /** `response.ok`: the status is in the range 200-299. */
  predicate OkStatus(status: nat)
  {
    200 <= status <= 299
  }

  datatype RssItem = RssItem(title: string, link: string, description: string, pubDate: string)

  datatype Channel = Channel(title: string, link: string, description: string, item: seq<RssItem>)

  datatype RssFeed = RssFeed(channel: Channel)

  /** An item is kept when its four fields are all strings. */
  predicate IsItem(v: JsValue)
  {
    Get(v, "title").Str? && Get(v, "link").Str? && Get(v, "description").Str? && Get(v, "pubDate").Str?
  }

  /** The item that is pushed for a kept raw item: its four fields and nothing else. */
  function ToItem(v: JsValue): (r: RssItem)
    requires IsItem(v)
    ensures Get(v, "title") == Str(r.title) && Get(v, "link") == Str(r.link)
    ensures Get(v, "description") == Str(r.description) && Get(v, "pubDate") == Str(r.pubDate)
  {
    RssItem(Get(v, "title").s, Get(v, "link").s, Get(v, "description").s, Get(v, "pubDate").s)
  }

  /** The filter: the kept raw items, converted, in their original order. */
  function Keep(raw: seq<JsValue>): (r: seq<RssItem>)
    ensures |r| <= |raw|
  {
    if raw == [] then []
    else
      var last := raw[|raw| - 1];
      Keep(raw[..|raw| - 1]) + (if IsItem(last) then [ToItem(last)] else [])
  }

  /** The positions of the kept raw items: an independent description of Keep. */
  function KeptIndices(raw: seq<JsValue>): (ix: seq<nat>)
    ensures forall k :: 0 <= k < |ix| ==> ix[k] < |raw| && IsItem(raw[ix[k]])
    ensures forall k, l :: 0 <= k < l < |ix| ==> ix[k] < ix[l]
    ensures forall i :: 0 <= i < |raw| && IsItem(raw[i]) ==> i in ix
  {
    if raw == [] then []
    else
      var n := |raw| - 1;
      var front := KeptIndices(raw[..n]);
      assert forall i :: 0 <= i < n ==> raw[..n][i] == raw[i];
      front + (if IsItem(raw[n]) then [n] else [])
  }

  /** Keep selects exactly the raw items at KeptIndices, in that order. */
  lemma {:induction false} KeepSelects(raw: seq<JsValue>)
    ensures |Keep(raw)| == |KeptIndices(raw)|
    ensures forall k :: 0 <= k < |Keep(raw)| ==>
      IsItem(raw[KeptIndices(raw)[k]]) && Keep(raw)[k] == ToItem(raw[KeptIndices(raw)[k]])
  {
    if raw != [] {
      var n := |raw| - 1;
      KeepSelects(raw[..n]);
      assert forall i :: 0 <= i < n ==> raw[..n][i] == raw[i];
    }
  }

  /** Filtering a concatenation filters each part. */
  lemma {:induction false} KeepAppend(a: seq<JsValue>, b: seq<JsValue>)
    ensures Keep(a + b) == Keep(a) + Keep(b)
  {
    if b == [] {
      assert a + b == a;
    } else {
      var n := |b| - 1;
      KeepAppend(a, b[..n]);
      assert (a + b)[..|a + b| - 1] == a + b[..n];
    }
  }

  /** The index of the first null or undefined raw item, or |raw| if none. */
  function FirstNullish(raw: seq<JsValue>): (k: nat)
    ensures k <= |raw|
    ensures k < |raw| ==> Nullish(raw[k])
    ensures forall j :: 0 <= j < k ==> !Nullish(raw[j])
  {
    if raw == [] then 0
    else if Nullish(raw[0]) then 0
    else 1 + FirstNullish(raw[1..])
  }

  /** The item loop: reading `item.title` of a null or undefined item throws a
      TypeError; otherwise the result is the filter. */
  function NormalizeItems(raw: seq<JsValue>): Result<seq<RssItem>, Error>
  {
    var k := FirstNullish(raw);
    if k < |raw| then Failure(NullishRead(raw[k].Null?, "title"))
    else Success(Keep(raw))
  }

  /** `channel.item` as a list: empty when falsy, the array itself, or a
      one-element list for a single item. */
  function RawItems(channel: JsValue): seq<JsValue>
  {
    var it := Get(channel, "item");
    if !Truthy(it) then []
    else if it.Arr? then it.elems
    else [it]
  }

  predicate HasMetadata(channel: JsValue)
  {
    Get(channel, "title").Str? && Get(channel, "link").Str? && Get(channel, "description").Str?
  }

  /** Steps 4 to 7 of fetchFeed, given the channel element. */
  function FeedFromChannel(channel: JsValue): Result<RssFeed, Error>
  {
    if !HasMetadata(channel) then Failure(MissingChannelMetadata)
    else
      match NormalizeItems(RawItems(channel))
      case Failure(e) => Failure(e)
      case Success(items) =>
        Success(RssFeed(Channel(Get(channel, "title").s, Get(channel, "link").s, Get(channel, "description").s, items)))
  }

  /** The whole of fetchFeed as a function of what the request produced. */
  function FeedOf(outcome: FetchOutcome): Result<RssFeed, Error>
  {
    match outcome
    case TransportError(reason) => Failure(FetchFailed(reason))
    case Response(status, document) =>
      if !OkStatus(status) then Failure(BadStatus(status))
      else
        var rss := Get(Obj(document), "rss");
        if !Truthy(rss) || !Truthy(Get(rss, "channel")) then Failure(MissingChannel)
        else FeedFromChannel(Get(rss, "channel"))
  }

  /** The item loop of fetchFeed (src/rss.ts:65-85). */
  method CollectItems(raw: seq<JsValue>) returns (r: Result<seq<RssItem>, Error>)
    ensures r == NormalizeItems(raw)
  {
    var items: seq<RssItem> := [];
    var i := 0;
    while i < |raw|
      invariant 0 <= i <= |raw|
      invariant forall j :: 0 <= j < i ==> !Nullish(raw[j])
      invariant items == Keep(raw[..i])
    {
      var item := raw[i];
      if Nullish(item) {
        return Failure(NullishRead(item.Null?, "title"));
      }
      if IsItem(item) {
        items := items + [ToItem(item)];
      }
      assert raw[..i + 1][..i] == raw[..i];
      i := i + 1;
    }
    assert raw[..i] == raw;
    return Success(items);
  }

  /** fetchFeed, after the request: status check, channel and metadata
      checks, then the item loop. */
  method FetchFeed(outcome: FetchOutcome) returns (r: Result<RssFeed, Error>)
    ensures r == FeedOf(outcome)
  {
    if outcome.TransportError? {
      return Failure(FetchFailed(outcome.reason));
    }
    if !OkStatus(outcome.status) {
      return Failure(BadStatus(outcome.status));
    }
    var parsed := Obj(outcome.document);
    if !Truthy(Get(parsed, "rss")) || !Truthy(Get(Get(parsed, "rss"), "channel")) {
      return Failure(MissingChannel);
    }
    var channel := Get(Get(parsed, "rss"), "channel");
    var title := Get(channel, "title");
    var link := Get(channel, "link");
    var description := Get(channel, "description");
    if !title.Str? || !link.Str? || !description.Str? {
      return Failure(MissingChannelMetadata);
    }
    var items: seq<RssItem> := [];
    if Truthy(Get(channel, "item")) {
      var rawItems := if Get(channel, "item").Arr? then Get(channel, "item").elems else [Get(channel, "item")];
      var collected := CollectItems(rawItems);
      if collected.Failure? {
        return Failure(collected.error);
      }
      items := collected.value;
    }
    return Success(RssFeed(Channel(title.s, link.s, description.s, items)));
  }

  // ---------------------------------------------------------------------
  // Properties of fetchFeed

  /** A response that is not ok fails with its status, whatever its body. */
  lemma BadStatusIgnoresBody(status: nat, d1: map<string, JsValue>, d2: map<string, JsValue>)
    requires !OkStatus(status)
    ensures FeedOf(Response(status, d1)) == FeedOf(Response(status, d2)) == Failure(BadStatus(status))
  {
  }

  /** A missing or falsy `rss` or `rss.channel` is the missing-channel error. */
  lemma MissingChannelFails(status: nat, document: map<string, JsValue>)
    requires OkStatus(status)
    requires !Truthy(Get(Obj(document), "rss")) || !Truthy(Get(Get(Obj(document), "rss"), "channel"))
    ensures FeedOf(Response(status, document)) == Failure(MissingChannel)
  {
  }

  /** Channel metadata that is not all strings fails, whatever the items are. */
  lemma MetadataRequired(channel: JsValue)
    requires !HasMetadata(channel)
    ensures FeedFromChannel(channel) == Failure(MissingChannelMetadata)
  {
  }

  /** NormalizeItems succeeds exactly when no raw item is null or undefined,
      and then gives the filter. */
  lemma NormalizeItemsSpec(raw: seq<JsValue>)
    ensures NormalizeItems(raw).Success? <==> forall i :: 0 <= i < |raw| ==> !Nullish(raw[i])
    ensures NormalizeItems(raw).Success? ==> NormalizeItems(raw).value == Keep(raw)
    ensures NormalizeItems(raw).Failure? ==>
      exists k :: 0 <= k < |raw| && Nullish(raw[k]) && (forall j :: 0 <= j < k ==> !Nullish(raw[j]))
        && NormalizeItems(raw).error == NullishRead(raw[k].Null?, "title")
  {
  }

  /** fetchFeed succeeds exactly when the response is ok, the channel is
      present, its metadata are strings and no item is null or undefined; the
      feed then carries the channel's own metadata and the filtered items. */
  lemma FeedSuccess(status: nat, document: map<string, JsValue>)
    ensures var rss := Get(Obj(document), "rss");
            var channel := Get(rss, "channel");
            FeedOf(Response(status, document)).Success? <==>
              OkStatus(status) && Truthy(rss) && Truthy(channel) && HasMetadata(channel)
              && forall i :: 0 <= i < |RawItems(channel)| ==> !Nullish(RawItems(channel)[i])
    ensures var channel := Get(Get(Obj(document), "rss"), "channel");
            var r := FeedOf(Response(status, document));
            r.Success? ==>
              Get(channel, "title") == Str(r.value.channel.title)
              && Get(channel, "link") == Str(r.value.channel.link)
              && Get(channel, "description") == Str(r.value.channel.description)
              && r.value.channel.item == Keep(RawItems(channel))
  {
    NormalizeItemsSpec(RawItems(Get(Get(Obj(document), "rss"), "channel")));
  }

  /** A single item that is not an array is read as a one-element list. */
  lemma SingleItemIsList(props: map<string, JsValue>, v: JsValue)
    requires Truthy(v) && !v.Arr?
    ensures FeedFromChannel(Obj(props["item" := v])) == FeedFromChannel(Obj(props["item" := Arr([v])]))
  {
  }

  /** A missing or falsy item gives an empty item list, not an error. */
  lemma NoItemsIsEmpty(props: map<string, JsValue>)
    requires !Truthy(Get(Obj(props), "item"))
    requires HasMetadata(Obj(props))
    ensures FeedFromChannel(Obj(props)).Success?
    ensures FeedFromChannel(Obj(props)).value.channel.item == []
  {
  }

  /** Extra fields of a raw item do not reach the output item. */
  lemma ItemIgnoresOtherFields(props: map<string, JsValue>, key: string, v: JsValue)
    requires key !in {"title", "link", "description", "pubDate"}
    requires IsItem(Obj(props))
    ensures IsItem(Obj(props[key := v]))
    ensures ToItem(Obj(props[key := v])) == ToItem(Obj(props))
  {
  }

  lemma {:induction false} FirstNullishInsert(a: seq<JsValue>, x: JsValue, b: seq<JsValue>)
    requires !Nullish(x)
    ensures var s1, s2 := a + b, a + [x] + b;
            (FirstNullish(s1) < |s1| <==> FirstNullish(s2) < |s2|)
            && (FirstNullish(s1) < |s1| ==> s1[FirstNullish(s1)] == s2[FirstNullish(s2)])
  {
    if a == [] {
      assert a + b == b;
      assert (a + [x] + b)[1..] == b;
    } else {
      FirstNullishInsert(a[1..], x, b);
      assert (a + b)[1..] == a[1..] + b;
      assert (a + [x] + b)[1..] == a[1..] + [x] + b;
    }
  }

  /** Adding an item that is neither kept nor null/undefined anywhere in the
      list changes nothing. */
  lemma {:induction false} SkippedItemChangesNothing(a: seq<JsValue>, x: JsValue, b: seq<JsValue>)
    requires !Nullish(x) && !IsItem(x)
    ensures NormalizeItems(a + [x] + b) == NormalizeItems(a + b)
  {
    var s1, s2 := a + b, a + [x] + b;
    FirstNullishInsert(a, x, b);
    var k1, k2 := FirstNullish(s1), FirstNullish(s2);
    if k1 < |s1| {
      assert NormalizeItems(s1) == Failure(NullishRead(s1[k1].Null?, "title"));
      assert NormalizeItems(s2) == Failure(NullishRead(s2[k2].Null?, "title"));
    } else {
      KeepAppend(a, [x]);
      KeepAppend(a + [x], b);
      KeepAppend(a, b);
      assert Keep([x]) == [] by {
        assert [x][..0] == [];
      }
      assert Keep(s2) == Keep(s1);
    }
  }

  /** The same, for the feed: adding such an item to `channel.item` leaves the
      result unchanged. */
  lemma SkippedItemKeepsFeed(props: map<string, JsValue>, a: seq<JsValue>, x: JsValue, b: seq<JsValue>)
    requires !Nullish(x) && !IsItem(x)
    ensures FeedFromChannel(Obj(props["item" := Arr(a + [x] + b)])) == FeedFromChannel(Obj(props["item" := Arr(a + b)]))
  {
    var c1, c2 := Obj(props["item" := Arr(a + b)]), Obj(props["item" := Arr(a + [x] + b)]);
    assert Get(c2, "title") == Get(c1, "title");
    assert Get(c2, "link") == Get(c1, "link");
    assert Get(c2, "description") == Get(c1, "description");
    assert RawItems(c1) == a + b;
    assert RawItems(c2) == a + [x] + b;
    SkippedItemChangesNothing(a, x, b);
  }
}
