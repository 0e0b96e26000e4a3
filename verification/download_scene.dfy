/**
 The `download_scene` HTTP function: check configuration, read the request,
 search the catalogue, pick and sign the least cloudy scene, build a manifest
 and upload it to blob storage. Each stage either hands its result to the
 next or answers at once with a status code, so a failing stage keeps every
 later one from running. The storage client, the catalogue, the signer and
 the blob upload are foreign calls whose outcomes are inputs (`Services`);
 the calls that reach them are recorded in order.
 */
module DownloadScene {
  import opened Outcomes
  import opened Scenes
  import Stamps

  /** A JSON value as `json.loads` produces it. */
  datatype Json =
    | JNull
    | JBool(b: bool)
    | JNumber(n: real)
    | JString(s: string)
    | JArray(elements: seq<Json>)
    | JObject(members: map<string, Json>)

  /**
   The request body as `req.get_json()` leaves it: not JSON at all (it raises
   ValueError), JSON that is not an object (named by its Python type), or an
   object, of which only the four members the handler reads are kept.
   */
  datatype Body =
    | Unparseable
    | NotAnObject(pythonType: string)
    | Object(areaOfInterest: Option<Json>, date: Option<Json>, maxCloudCover: Option<Json>, region: Option<string>)

  /** The request parameters after `dict.get` has applied its defaults. */
  datatype Params = Params(areaOfInterest: Json, date: Json, maxCloudCover: Json, region: string)

  /** A catalogue search: collection, geometry, datetime range and the `eo:cloud_cover < bound` filter. */
  datatype Query = Query(collection: string, intersects: Json, datetime: Json, cloudCoverBelow: Json)

  /** The record uploaded for the chosen scene. */
  datatype Manifest = Manifest(sceneId: string, date: string, cloudCover: real, imageUrl: string, areaOfInterest: Json)

  /** What the foreign calls do on this request. */
  datatype Services = Services(
    connect: string -> Outcome<()>,                 // BlobServiceClient.from_connection_string
    search: Query -> Outcome<seq<Scene>>,           // Client.open, catalog.search, list(search.get_items())
    sign: Scene -> Outcome<Scene>,                  // planetary_computer.sign
    upload: (string, string, Json) -> Outcome<()>)  // container, blob name, the document json.dumps serialises

  /** A call that reached the catalogue, the signer or blob storage. */
  datatype Call =
    | Searched(query: Query)
    | Signed(scene: Scene)
    | Uploaded(container: string, blob: string, document: Json)

  datatype Payload = Text(text: string) | Document(json: Json)

  /** An HTTP response, or an exception that escaped the handler (the host turns it into its own error). */
  datatype Reply = Http(status: int, payload: Payload) | Uncaught(message: string)

  /** The reply to a request and the foreign calls made while producing it. */
  datatype Handled = Handled(reply: Reply, calls: seq<Call>)

  const Collection := "sentinel-2-l2a"
  const Container := "wildfire-data"
  const DefaultMaxCloudCover := 10.0
  const DefaultRegion := "manifests"
  const BlobPrefix := "raw/satellite/"
  const BlobSuffix := "_manifest.json"

  const MissingConfigMessage := "AzureWebJobsStorage environment variable is not set"
  const InvalidJsonMessage := "Invalid JSON in request body."
  const NoImagesMessage := "No satellite images found for your criteria."

  /** `if not connection_string`: the variable is unset or empty. */
  predicate Configured(connection: Option<string>) {
    connection.Some? && connection.value != ""
  }

  /** The position of a call in the fixed order of stages. */
  function StageIndex(c: Call): nat {
    match c
    case Searched(_) => 0
    case Signed(_) => 1
    case Uploaded(_, _, _) => 2
  }

  /** `req_body.get(...)` for the four parameters; absent members read as None, or as the stated defaults. */
  function ReadParams(body: Body): (p: Params)
    requires body.Object?
    ensures p.maxCloudCover == (if body.maxCloudCover.None? then JNumber(DefaultMaxCloudCover) else body.maxCloudCover.value)
    ensures p.region == (if body.region.None? then DefaultRegion else body.region.value)
    ensures p.areaOfInterest == (if body.areaOfInterest.None? then JNull else body.areaOfInterest.value)
    ensures p.date == (if body.date.None? then JNull else body.date.value)
  {
    Params(body.areaOfInterest.GetOr(JNull), body.date.GetOr(JNull),
           body.maxCloudCover.GetOr(JNumber(DefaultMaxCloudCover)), body.region.GetOr(DefaultRegion))
  }

  function SearchQuery(p: Params): Query {
    Query(Collection, p.areaOfInterest, p.date, p.maxCloudCover)
  }

  /**
   The manifest of the chosen scene: identity, capture time and cloud cover
   from the scene, image URL from the signed copy's visual asset, and the
   request's area of interest. Raises like the Python dict display does when
   the signed copy has no visual asset or the scene has no capture time.
   */
  function BuildManifest(best: Scene, signed: Scene, areaOfInterest: Json): (r: Outcome<Manifest>)
    ensures r.Done? <==> VisualRole in signed.assets && best.datetime.Some?
    ensures r.Done? ==> r.value == Manifest(best.id, best.datetime.value, best.cloudCover,
                                            signed.assets[VisualRole].href, areaOfInterest)
  {
    if VisualRole !in signed.assets then Raised("'visual'")
    else if best.datetime.None? then Raised("'NoneType' object has no attribute 'isoformat'")
    else Done(Manifest(best.id, best.datetime.value, best.cloudCover, signed.assets[VisualRole].href, areaOfInterest))
  }

  /** The JSON object `json.dumps` serialises: exactly the five manifest keys. */
  function ManifestDocument(m: Manifest): (j: Json)
    ensures j.JObject? && j.members.Keys == {"scene_id", "date", "cloud_cover", "image_url", "area_of_interest"}
    ensures j.members["scene_id"] == JString(m.sceneId)
    ensures j.members["date"] == JString(m.date)
    ensures j.members["cloud_cover"] == JNumber(m.cloudCover)
    ensures j.members["image_url"] == JString(m.imageUrl)
    ensures j.members["area_of_interest"] == m.areaOfInterest
  {
    JObject(map[
      "scene_id" := JString(m.sceneId),
      "date" := JString(m.date),
      "cloud_cover" := JNumber(m.cloudCover),
      "image_url" := JString(m.imageUrl),
      "area_of_interest" := m.areaOfInterest])
  }

  /** Reads a manifest back from its document; None unless it is an object whose five members have the manifest's types. */
  function ManifestOf(j: Json): Option<Manifest> {
    if !j.JObject? then None
    else
      var fields := j.members;
      if && "scene_id" in fields && fields["scene_id"].JString?
         && "date" in fields && fields["date"].JString?
         && "cloud_cover" in fields && fields["cloud_cover"].JNumber?
         && "image_url" in fields && fields["image_url"].JString?
         && "area_of_interest" in fields
      then Some(Manifest(fields["scene_id"].s, fields["date"].s, fields["cloud_cover"].n,
                         fields["image_url"].s, fields["area_of_interest"]))
      else None
  }

  /** The uploaded document loses nothing: reading it back gives the manifest it was built from. */
  lemma ManifestDocumentRoundTrip(m: Manifest)
    ensures ManifestOf(ManifestDocument(m)) == Some(m)
  {
  }

  /** `f"raw/satellite/{region}/{scene_id}_{timestamp}_manifest.json"`. */
  function BlobName(region: string, sceneId: string, stamp: string): (name: string)
    ensures |name| == |BlobPrefix| + |region| + 1 + |sceneId| + 1 + |stamp| + |BlobSuffix|
    ensures name[..|BlobPrefix|] == BlobPrefix && name[|name| - |BlobSuffix|..] == BlobSuffix
  {
    BlobPrefix + region + "/" + sceneId + "_" + stamp + BlobSuffix
  }

  /** The success body: the blob the manifest went to and the word "success". */
  function SuccessDocument(blob: string): Json {
    JObject(map["manifest_path" := JString(blob), "status" := JString("success")])
  }

  /** Stages 3 to 7: search, select and sign, build the manifest, upload it, answer. */
  function Pipeline(p: Params, services: Services, now: Stamps.DateTime): (h: Handled)
    requires Stamps.Valid(now)
  {
    var query := SearchQuery(p);
    match services.search(query)
    case Raised(m) => Handled(Http(500, Text("STAC search error: " + m)), [Searched(query)])
    case Done(items) =>
      if |items| == 0 then Handled(Http(404, Text(NoImagesMessage)), [Searched(query)])
      else
        var k := BestIndex(items, |items|);
        assert items[..|items|] == items;
        var best := items[k];
        var signing := [Searched(query), Signed(best)];
        match services.sign(best)
        case Raised(m) => Handled(Http(500, Text("Item processing error: " + m)), signing)
        case Done(signed) =>
          match BuildManifest(best, signed, p.areaOfInterest)
          case Raised(m) => Handled(Http(500, Text("Manifest error: " + m)), signing)
          case Done(manifest) =>
            var blob := BlobName(p.region, best.id, Stamps.Format(now));
            var document := ManifestDocument(manifest);
            var calls := signing + [Uploaded(Container, blob, document)];
            match services.upload(Container, blob, document)
            case Raised(m) => Handled(Http(500, Text("Upload error: " + m)), calls)
            case Done(_) => Handled(Http(200, Document(SuccessDocument(blob))), calls)
  }

  /**
   `download_scene(req)`: `connection` is the AzureWebJobsStorage setting and
   `now` the local time `datetime.now()` reads at upload.
   */
  function Handle(connection: Option<string>, body: Body, services: Services, now: Stamps.DateTime): (h: Handled)
    requires Stamps.Valid(now)
    ensures !Configured(connection) ==> h == Handled(Http(500, Text(MissingConfigMessage)), [])
    ensures h.reply == Http(400, Text(InvalidJsonMessage)) <==>
              Configured(connection) && services.connect(connection.value).Done? && body.Unparseable?
    ensures |h.calls| <= 3 && forall i :: 0 <= i < |h.calls| ==> StageIndex(h.calls[i]) == i
    ensures h.reply.Http? && h.reply.status == 404 ==> |h.calls| == 1 && h.calls[0].Searched? && services.search(h.calls[0].query) == Done([])
    ensures h.reply.Http? && h.reply.status == 200 ==>
              && |h.calls| == 3 && h.calls[2].Uploaded?
              && h.reply.payload == Document(SuccessDocument(h.calls[2].blob))
              && services.upload(h.calls[2].container, h.calls[2].blob, h.calls[2].document).Done?
  {
    if !Configured(connection) then Handled(Http(500, Text(MissingConfigMessage)), [])
    else
      match services.connect(connection.value)
      case Raised(m) => Handled(Uncaught(m), [])
      case Done(_) =>
        match body
        case Unparseable => Handled(Http(400, Text(InvalidJsonMessage)), [])
        case NotAnObject(t) => Handled(Uncaught("'" + t + "' object has no attribute 'get'"), [])
        case Object(_, _, _, _) => Pipeline(ReadParams(body), services, now)
  }

  /**
   Distinct regions, scenes or stamps give distinct blob names, as long as the
   region holds no '/' and the stamps have one length (as every
   `%Y%m%d_%H%M%S` stamp does).
   */
  lemma {:induction false} BlobNameInjective(r1: string, i1: string, s1: string, r2: string, i2: string, s2: string)
    requires '/' !in r1 && '/' !in r2 && |s1| == |s2|
    requires BlobName(r1, i1, s1) == BlobName(r2, i2, s2)
    ensures r1 == r2 && i1 == i2 && s1 == s2
  {
    BlobNameRegrouped(r1, i1, s1);
    BlobNameRegrouped(r2, i2, s2);
    CancelPrefix(BlobPrefix, r1 + "/" + ((i1 + "_" + s1) + BlobSuffix), r2 + "/" + ((i2 + "_" + s2) + BlobSuffix));
    SplitAtFirstSeparator(r1, (i1 + "_" + s1) + BlobSuffix, r2, (i2 + "_" + s2) + BlobSuffix, '/');
    CancelSuffix(i1 + "_" + s1, i2 + "_" + s2, BlobSuffix);
    SplitBeforeFixedTail(i1, s1, i2, s2, '_');
  }

  lemma BlobNameRegrouped(region: string, sceneId: string, stamp: string)
    ensures BlobName(region, sceneId, stamp) == BlobPrefix + (region + "/" + ((sceneId + "_" + stamp) + BlobSuffix))
  {
  }

  lemma CancelPrefix(prefix: string, x: string, y: string)
    requires prefix + x == prefix + y
    ensures x == y
  {
    assert x == (prefix + x)[|prefix|..];
  }

  /** Text before the first occurrence of a separator, and the rest after it, are determined by the whole. */
  lemma SplitAtFirstSeparator(a1: string, t1: string, a2: string, t2: string, sep: char)
    requires sep !in a1 && sep !in a2
    requires a1 + [sep] + t1 == a2 + [sep] + t2
    ensures a1 == a2 && t1 == t2
  {
    var w := a1 + [sep] + t1;
    assert w[|a1|] == sep && w[|a2|] == sep;
    assert forall k :: 0 <= k < |a1| ==> w[k] == a1[k];
    assert forall k :: 0 <= k < |a2| ==> w[k] == a2[k];
    assert |a1| == |a2|;
    assert a1 == w[..|a1|] == a2;
    assert t1 == w[|a1| + 1..] == t2;
  }

  lemma CancelSuffix(x: string, y: string, suffix: string)
    requires x + suffix == y + suffix
    ensures x == y
  {
    assert x == (x + suffix)[..|x|];
  }

  /** With tails of equal length, a separated text splits only one way. */
  lemma SplitBeforeFixedTail(a1: string, t1: string, a2: string, t2: string, sep: char)
    requires |t1| == |t2|
    requires a1 + [sep] + t1 == a2 + [sep] + t2
    ensures a1 == a2 && t1 == t2
  {
    var w := a1 + [sep] + t1;
    assert a1 == w[..|a1|] == a2;
    assert t1 == w[|a1| + 1..] == t2;
  }

  /** The manifest key of a run always carries a stamp of the shape `YYYYMMDD_HHMMSS`, right before the suffix. */
  lemma BlobNameCarriesStamp(region: string, sceneId: string, now: Stamps.DateTime)
    requires Stamps.Valid(now)
    ensures var name := BlobName(region, sceneId, Stamps.Format(now));
            var end := |name| - |BlobSuffix|;
            && end >= 16
            && name[end - 16] == '_'
            && Stamps.IsStampShape(name[end - 15..end])
            && Stamps.Parse(name[end - 15..end]) == Some(now)
  {
    var stamp := Stamps.Format(now);
    var name := BlobName(region, sceneId, stamp);
    assert name == (BlobPrefix + region + "/" + sceneId + "_") + stamp + BlobSuffix;
    var end := |name| - |BlobSuffix|;
    assert name[end - 15..end] == stamp;
    Stamps.ParseFormat(now);
  }

  /** The request reached the pipeline: storage is configured and the body is a JSON object. */
  predicate Accepted(connection: Option<string>, body: Body, services: Services) {
    Configured(connection) && services.connect(connection.value).Done? && body.Object?
  }

  /**
   An accepted request is always searched with the parsed parameters: an
   absent `max_cloud_cover` becomes the bound 10 in the `eo:cloud_cover` filter.
   */
  lemma AcceptedRequestIsSearched(connection: Option<string>, body: Body, services: Services, now: Stamps.DateTime)
    requires Stamps.Valid(now) && Accepted(connection, body, services)
    ensures var h := Handle(connection, body, services, now);
            && |h.calls| >= 1
            && h.calls[0] == Searched(Query(Collection, body.areaOfInterest.GetOr(JNull), body.date.GetOr(JNull),
                                            body.maxCloudCover.GetOr(JNumber(10.0))))
  {
  }

  /** A request that is not JSON is answered 400 before the catalogue is reached. */
  lemma InvalidJsonIsRejectedBeforeSearch(connection: Option<string>, services: Services, now: Stamps.DateTime)
    requires Stamps.Valid(now) && Configured(connection) && services.connect(connection.value).Done?
    ensures Handle(connection, Unparseable, services, now) == Handled(Http(400, Text(InvalidJsonMessage)), [])
  {
  }

  /** An empty search result is answered 404, and nothing is signed or uploaded. */
  lemma EmptySearchIsNotFound(connection: Option<string>, body: Body, services: Services, now: Stamps.DateTime)
    requires Stamps.Valid(now) && Accepted(connection, body, services)
    requires services.search(SearchQuery(ReadParams(body))) == Done([])
    ensures Handle(connection, body, services, now)
            == Handled(Http(404, Text(NoImagesMessage)), [Searched(SearchQuery(ReadParams(body)))])
  {
  }

  /** A raising search is answered 500 and no later stage runs. */
  lemma SearchFailureStopsTheRun(connection: Option<string>, body: Body, services: Services, now: Stamps.DateTime)
    requires Stamps.Valid(now) && Accepted(connection, body, services)
    requires services.search(SearchQuery(ReadParams(body))).Raised?
    ensures var q := SearchQuery(ReadParams(body));
            Handle(connection, body, services, now)
            == Handled(Http(500, Text("STAC search error: " + services.search(q).message)), [Searched(q)])
  {
  }

  /**
   A raising signer is answered 500 after one attempt on the least cloudy
   scene (at index `k`); the manifest is never built and nothing is uploaded.
   */
  lemma SigningFailureStopsTheRun(connection: Option<string>, body: Body, services: Services, now: Stamps.DateTime, k: nat)
    requires Stamps.Valid(now) && Accepted(connection, body, services)
    requires var found := services.search(SearchQuery(ReadParams(body)));
             found.Done? && IsFirstLeastCloudy(found.value, k) && services.sign(found.value[k]).Raised?
    ensures var q := SearchQuery(ReadParams(body));
            var best := services.search(q).value[k];
            Handle(connection, body, services, now)
            == Handled(Http(500, Text("Item processing error: " + services.sign(best).message)), [Searched(q), Signed(best)])
  {
    FoldFindsFirstLeastCloudy(services.search(SearchQuery(ReadParams(body))).value, k);
  }

  /** A manifest that cannot be built is answered 500 and nothing is uploaded. */
  lemma ManifestFailureStopsTheRun(connection: Option<string>, body: Body, services: Services, now: Stamps.DateTime, k: nat)
    requires Stamps.Valid(now) && Accepted(connection, body, services)
    requires var found := services.search(SearchQuery(ReadParams(body)));
             && found.Done? && IsFirstLeastCloudy(found.value, k)
             && services.sign(found.value[k]).Done?
             && BuildManifest(found.value[k], services.sign(found.value[k]).value, ReadParams(body).areaOfInterest).Raised?
    ensures var q := SearchQuery(ReadParams(body));
            var best := services.search(q).value[k];
            var built := BuildManifest(best, services.sign(best).value, ReadParams(body).areaOfInterest);
            Handle(connection, body, services, now)
            == Handled(Http(500, Text("Manifest error: " + built.message)), [Searched(q), Signed(best)])
  {
    FoldFindsFirstLeastCloudy(services.search(SearchQuery(ReadParams(body))).value, k);
  }

  /**
   Once signing and the manifest succeed, the run has searched with the
   request's parameters, signed the least cloudy scene (at index `k`) and
   uploaded that scene's manifest to `wildfire-data` under its key; the reply
   is 200 naming that key when the upload succeeds, and 500 when it raises.
   */
  lemma UploadIsTheLastStage(connection: Option<string>, body: Body, services: Services, now: Stamps.DateTime, k: nat)
    requires Stamps.Valid(now) && Accepted(connection, body, services)
    requires var found := services.search(SearchQuery(ReadParams(body)));
             && found.Done? && IsFirstLeastCloudy(found.value, k)
             && services.sign(found.value[k]).Done?
             && BuildManifest(found.value[k], services.sign(found.value[k]).value, ReadParams(body).areaOfInterest).Done?
    ensures var p := ReadParams(body);
            var q := SearchQuery(p);
            var best := services.search(q).value[k];
            var blob := BlobName(p.region, best.id, Stamps.Format(now));
            var document := ManifestDocument(Manifest(best.id, best.datetime.value, best.cloudCover,
                                                      services.sign(best).value.assets[VisualRole].href, p.areaOfInterest));
            var h := Handle(connection, body, services, now);
            && h.calls == [Searched(q), Signed(best), Uploaded(Container, blob, document)]
            && (services.upload(Container, blob, document).Done? ==> h.reply == Http(200, Document(SuccessDocument(blob))))
            && (services.upload(Container, blob, document).Raised? ==>
                  h.reply == Http(500, Text("Upload error: " + services.upload(Container, blob, document).message)))
  {
    FoldFindsFirstLeastCloudy(services.search(SearchQuery(ReadParams(body))).value, k);
  }

  /**
   A 200 reply is given exactly when every stage succeeds: storage is
   configured, the body is an object, the search finds scenes, signing the
   least cloudy one and building its manifest succeed, and the upload does.
   */
  lemma OkExactlyWhenEveryStageSucceeds(connection: Option<string>, body: Body, services: Services, now: Stamps.DateTime)
    requires Stamps.Valid(now)
    ensures var h := Handle(connection, body, services, now);
            h.reply.Http? && h.reply.status == 200 <==>
              && Accepted(connection, body, services)
              && var p := ReadParams(body);
                 var found := services.search(SearchQuery(p));
                 && found.Done? && |found.value| > 0
                 && var best := found.value[BestIndex(found.value, |found.value|)];
                    && services.sign(best).Done?
                    && BuildManifest(best, services.sign(best).value, p.areaOfInterest).Done?
                    && services.upload(Container, BlobName(p.region, best.id, Stamps.Format(now)),
                                       ManifestDocument(BuildManifest(best, services.sign(best).value, p.areaOfInterest).value)).Done?
  {
  }
}
