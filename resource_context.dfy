/** Resource context for a user turn (`load_resource_context`): every
    resource is read over the session and its contents turned into blocks
    the LLM accepts, a labelled text block or a base64 image block; a
    resource whose read raises contributes nothing and the others go on. */
module ResourceContext {
  import opened Results
  import opened Text
  import opened Mcp
  import opened Client
  import opened Llm
  import opened Sequences

  /** The text block of a text resource: a label naming the URI, a newline,
      then the text. */
  function Labelled(uri: string, text: string): string {
    "[Resource: " + uri + "]\n" + text
  }

  /** Contents the LLM can take as an image: a MIME type that is present
      and starts with `image/` (an empty one is falsy and does not). */
  predicate IsImage(c: ResourceContents) {
    c.mimeType.Some? && StartsWith(c.mimeType.value, "image/")
  }

  /** The block one piece of contents becomes, if any: text always becomes
      labelled text, binary contents only when they are an image. */
  function ContentsBlock(uri: string, c: ResourceContents): Option<Block> {
    match c
    case TextResourceContents(_, _, text) => Some(TextBlock(Labelled(uri, text)))
    case BlobResourceContents(_, mimeType, blob) =>
      if IsImage(c) then Some(ImageBlock(mimeType.value, blob)) else None
  }

  /** The rule for one piece of contents: text becomes labelled text whatever
      its MIME type (the text test comes first); binary contents become an
      image block exactly when the MIME type is present and starts with
      `image/`, and are skipped otherwise. */
  lemma ContentsBlockRule(uri: string, c: ResourceContents)
    ensures c.TextResourceContents? ==> ContentsBlock(uri, c) == Some(TextBlock(Labelled(uri, c.text)))
    ensures c.BlobResourceContents? ==>
      (ContentsBlock(uri, c).Some? <==> c.mimeType.Some? && |c.mimeType.value| >= 6 && c.mimeType.value[..6] == "image/")
    ensures c.BlobResourceContents? && ContentsBlock(uri, c).Some? ==>
      ContentsBlock(uri, c).value == ImageBlock(c.mimeType.value, c.blob)
  {
  }

  /** The blocks of one resource's contents, in order. */
  function UriBlocks(uri: string, contents: seq<ResourceContents>): seq<Block>
    decreases |contents|
  {
    if |contents| == 0 then []
    else
      var last := contents[|contents| - 1];
      UriBlocks(uri, contents[..|contents| - 1])
        + (if ContentsBlock(uri, last).Some? then [ContentsBlock(uri, last).value] else [])
  }

  /** What one URI contributes: its blocks when the read returns, nothing
      when it raises (not connected, or a server error). */
  function UriContext(endpoint: Option<Server>, uri: string): seq<Block> {
    match ReadOutcome(endpoint, uri)
    case Ok(contents) => UriBlocks(uri, contents)
    case Err(_) => []
  }

  /** The context blocks of a list of URIs, in order. */
  function ContextBlocks(endpoint: Option<Server>, uris: seq<string>): seq<Block>
    decreases |uris|
  {
    if |uris| == 0 then []
    else ContextBlocks(endpoint, uris[..|uris| - 1]) + UriContext(endpoint, uris[|uris| - 1])
  }

  /** The reads sent: one per URI, in order, when connected. */
  function ReadRequests(endpoint: Option<Server>, uris: seq<string>): (requests: seq<Request>)
    ensures |requests| == (if endpoint.Some? then |uris| else 0)
  {
    if endpoint.Some? then seq(|uris|, i requires 0 <= i < |uris| => ReadResource(uris[i])) else []
  }

  /** One more URI sends one more read. */
  lemma ReadRequestsSnoc(endpoint: Option<Server>, uris: seq<string>, uri: string)
    ensures ReadRequests(endpoint, uris + [uri]) == ReadRequests(endpoint, uris) + Sent(endpoint, ReadResource(uri))
  {
    if endpoint.Some? {
      assert ReadRequests(endpoint, uris + [uri])[..|uris|] == ReadRequests(endpoint, uris);
    }
  }

  /** `load_resource_context`: reads each URI in turn and collects the
      blocks of what it returns, skipping a URI whose read raises. */
  method LoadResourceContext(client: McpClient, uris: seq<string>) returns (blocks: seq<Block>)
    requires client.Valid()
    modifies client`trace
    ensures client.Valid() && client.Endpoint() == old(client.Endpoint())
    ensures blocks == ContextBlocks(client.Endpoint(), uris)
    ensures client.trace == old(client.trace) + ReadRequests(client.Endpoint(), uris)
  {
    ghost var endpoint := client.Endpoint();
    blocks := [];
    assert uris[..0] == [];
    for i := 0 to |uris|
      invariant client.Valid() && client.Endpoint() == endpoint
      invariant blocks == ContextBlocks(endpoint, uris[..i])
      invariant client.trace == old(client.trace) + ReadRequests(endpoint, uris[..i])
    {
      var uri := uris[i];
      assert uris[..i + 1] == uris[..i] + [uri];
      ReadRequestsSnoc(endpoint, uris[..i], uri);
      AppendAssociates(old(client.trace), ReadRequests(endpoint, uris[..i]), Sent(endpoint, ReadResource(uri)));
      var contents := client.GetResource(uri);
      if contents.Ok? {
        ghost var before := blocks;
        for j := 0 to |contents.value|
          invariant blocks == before + UriBlocks(uri, contents.value[..j])
        {
          var c := contents.value[j];
          assert contents.value[..j + 1][..j] == contents.value[..j];
          match c {
            case TextResourceContents(_, _, text) =>
              blocks := blocks + [TextBlock(Labelled(uri, text))];
            case BlobResourceContents(_, mimeType, blob) =>
              if mimeType.Some? && StartsWith(mimeType.value, "image/") {
                blocks := blocks + [ImageBlock(mimeType.value, blob)];
              }
          }
        }
        assert contents.value[..|contents.value|] == contents.value;
      } else {
        assert blocks + [] == blocks;
      }
    }
    assert uris[..|uris|] == uris;
  }

  /** Reading URIs one list after another gives their blocks one after the other. */
  lemma {:induction false} ContextAppend(endpoint: Option<Server>, first: seq<string>, second: seq<string>)
    ensures ContextBlocks(endpoint, first + second) == ContextBlocks(endpoint, first) + ContextBlocks(endpoint, second)
    decreases |second|
  {
    if |second| == 0 {
      assert first + second == first;
    } else {
      var last := second[|second| - 1];
      var init := second[..|second| - 1];
      assert (first + second)[..|first + second| - 1] == first + init;
      ContextAppend(endpoint, first, init);
      AppendAssociates(ContextBlocks(endpoint, first), ContextBlocks(endpoint, init), UriContext(endpoint, last));
    }
  }

  /** A URI whose read raises leaves the context as it was without it. */
  lemma FailingUriContributesNothing(endpoint: Option<Server>, before: seq<string>, uri: string, after: seq<string>)
    requires ReadOutcome(endpoint, uri).Err?
    ensures ContextBlocks(endpoint, before + [uri] + after) == ContextBlocks(endpoint, before + after)
  {
    ContextAppend(endpoint, before + [uri], after);
    ContextAppend(endpoint, before, after);
    assert (before + [uri])[..|before + [uri]| - 1] == before;
  }

  /** When every read raises, every URI is skipped and there is no context. */
  lemma {:induction false} NoContextWhenEveryReadFails(endpoint: Option<Server>, uris: seq<string>)
    requires forall i | 0 <= i < |uris| :: ReadOutcome(endpoint, uris[i]).Err?
    ensures ContextBlocks(endpoint, uris) == []
    decreases |uris|
  {
    if |uris| > 0 {
      var init := uris[..|uris| - 1];
      assert forall i | 0 <= i < |init| :: init[i] == uris[i];
      NoContextWhenEveryReadFails(endpoint, init);
      assert ReadOutcome(endpoint, uris[|uris| - 1]).Err?;
    }
  }

  /** Without a connection every read raises and there is no context. */
  lemma {:induction false} NoContextWhenNotConnected(uris: seq<string>)
    ensures ContextBlocks(None, uris) == []
    decreases |uris|
  {
    if |uris| > 0 {
      NoContextWhenNotConnected(uris[..|uris| - 1]);
    }
  }

  /** Every block of a resource comes from one of its contents, and every
      piece of contents that has a block contributes it. */
  lemma {:induction false} UriBlocksFromContents(uri: string, contents: seq<ResourceContents>)
    ensures forall b | b in UriBlocks(uri, contents) :: exists c | c in contents :: ContentsBlock(uri, c) == Some(b)
    ensures forall c | c in contents && ContentsBlock(uri, c).Some? :: ContentsBlock(uri, c).value in UriBlocks(uri, contents)
    decreases |contents|
  {
    if |contents| > 0 {
      var init := contents[..|contents| - 1];
      var last := contents[|contents| - 1];
      UriBlocksFromContents(uri, init);
      assert contents == init + [last];
      forall b | b in UriBlocks(uri, contents)
        ensures exists c | c in contents :: ContentsBlock(uri, c) == Some(b)
      {
        if b in UriBlocks(uri, init) {
          var c :| c in init && ContentsBlock(uri, c) == Some(b);
          assert c in contents;
        } else {
          assert ContentsBlock(uri, last) == Some(b);
        }
      }
    }
  }

  /** When a resource is all text, its blocks are its texts, each labelled
      with the URI, one per piece and in order. */
  lemma {:induction false} AllTextBlocks(uri: string, contents: seq<ResourceContents>)
    requires forall i | 0 <= i < |contents| :: contents[i].TextResourceContents?
    ensures |UriBlocks(uri, contents)| == |contents|
    ensures forall i | 0 <= i < |contents| :: UriBlocks(uri, contents)[i] == TextBlock(Labelled(uri, contents[i].text))
    decreases |contents|
  {
    if |contents| > 0 {
      AllTextBlocks(uri, contents[..|contents| - 1]);
    }
  }

  /** A text block of the context always starts with the label of one of the
      URIs it was read from. */
  lemma {:induction false} TextBlocksAreLabelled(endpoint: Option<Server>, uris: seq<string>)
    ensures forall b | b in ContextBlocks(endpoint, uris) && b.TextBlock? ::
      exists uri | uri in uris :: StartsWith(b.text, "[Resource: " + uri + "]\n")
    decreases |uris|
  {
    if |uris| > 0 {
      var init := uris[..|uris| - 1];
      var uri := uris[|uris| - 1];
      TextBlocksAreLabelled(endpoint, init);
      forall b | b in ContextBlocks(endpoint, uris) && b.TextBlock?
        ensures exists u | u in uris :: StartsWith(b.text, "[Resource: " + u + "]\n")
      {
        if b in ContextBlocks(endpoint, init) {
          var u :| u in init && StartsWith(b.text, "[Resource: " + u + "]\n");
          assert u in uris;
        } else {
          assert b in UriContext(endpoint, uri);
          var contents := ReadOutcome(endpoint, uri).value;
          UriBlocksFromContents(uri, contents);
          var c :| c in contents && ContentsBlock(uri, c) == Some(b);
          assert b.text == "[Resource: " + uri + "]\n" + c.text;
          assert (b.text)[..|"[Resource: " + uri + "]\n"|] == "[Resource: " + uri + "]\n";
        }
      }
    }
  }
}
