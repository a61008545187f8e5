/** `getImageUrl`: the preview URL of a stored image, built from the environment and the file's ids. */
module ImageUrl {
  import opened Wrappers
  import opened Text
  import opened Numbers

  /** The EXPO_PUBLIC_APPWRITE_* variables the builder reads; None when a variable is unset. */
  datatype Env = Env(endpoint: Option<string>, projectId: Option<string>, tunnelMode: Option<string>, publicUrl: Option<string>)

  const DefaultWidth: int := 400
  const DefaultHeight: int := 300

  /** A JavaScript truthiness test on an optional string: set and not empty. */
  predicate Truthy(v: Option<string>) {
    v.Some? && v.value != ""
  }

  /** What `${v}` prints for an optional string. */
  function Interpolate(v: Option<string>): string {
    if v.Some? then v.value else "undefined"
  }

  predicate TunnelMode(env: Env) {
    env.tunnelMode == Some("true") && Truthy(env.publicUrl)
  }

  predicate MissingParams(env: Env, bucketId: string, fileId: string) {
    bucketId == "" || fileId == "" || !Truthy(env.endpoint) || !Truthy(env.projectId)
  }

  /** The path up to the width parameter, shared by both URL forms. */
  function PreviewPrefix(bucketId: string, fileId: string): string {
    "/storage/buckets/" + bucketId + "/files/" + fileId + "/preview?width="
  }

  /** The project parameter that closes the query. */
  function ProjectParam(project: string): string {
    "&project=" + project
  }

  /** The width and height parameters. */
  function SizeParams(width: int, height: int): string {
    IntToString(width) + "&height=" + IntToString(height)
  }

  /** The path and query shared by both URL forms. */
  function PreviewPath(bucketId: string, fileId: string, width: int, height: int, project: string): string {
    PreviewPrefix(bucketId, fileId) + (SizeParams(width, height) + ProjectParam(project))
  }

  /** The public URL with `/v1` in tunnel mode, else the endpoint (which already includes `/v1`). */
  function Base(env: Env): string {
    if TunnelMode(env) then env.publicUrl.value + "/v1"
    else if env.endpoint.Some? then env.endpoint.value else ""
  }

  /**
   * `getImageUrl(bucketId, fileId, width?, height?)`: tunnel mode is decided
   * first and builds on the public URL; otherwise a missing parameter gives ''
   * and anything else builds on the endpoint.
   */
  function GetImageUrl(env: Env, bucketId: string, fileId: string, width: Option<int>, height: Option<int>): (url: string)
    ensures url == "" <==> !TunnelMode(env) && MissingParams(env, bucketId, fileId)
  {
    var w := if width.Some? then width.value else DefaultWidth;
    var h := if height.Some? then height.value else DefaultHeight;
    if !TunnelMode(env) && MissingParams(env, bucketId, fileId) then ""
    else Base(env) + PreviewPath(bucketId, fileId, w, h, Interpolate(env.projectId))
  }

  /**
   * A non-empty URL is the base followed by the preview path of this very
   * file, and ends with the project id.
   */
  lemma UrlShape(env: Env, bucketId: string, fileId: string, w: Option<int>, h: Option<int>)
    requires GetImageUrl(env, bucketId, fileId, w, h) != ""
    ensures StartsWith(GetImageUrl(env, bucketId, fileId, w, h), Base(env) + PreviewPrefix(bucketId, fileId))
    ensures EndsWith(GetImageUrl(env, bucketId, fileId, w, h), ProjectParam(Interpolate(env.projectId)))
  {
    var wd := if w.Some? then w.value else DefaultWidth;
    var ht := if h.Some? then h.value else DefaultHeight;
    NestedConcatEnds(Base(env), PreviewPrefix(bucketId, fileId), SizeParams(wd, ht), ProjectParam(Interpolate(env.projectId)));
  }

  /**
   * Between that prefix and that suffix a non-empty URL holds the requested
   * width and height, or 400 and 300 where they are omitted.
   */
  lemma UrlSize(env: Env, bucketId: string, fileId: string, w: Option<int>, h: Option<int>)
    requires GetImageUrl(env, bucketId, fileId, w, h) != ""
    ensures var url := GetImageUrl(env, bucketId, fileId, w, h);
      var front := |Base(env) + PreviewPrefix(bucketId, fileId)|;
      var back := |url| - |ProjectParam(Interpolate(env.projectId))|;
      && front <= back
      && url[front..back] == SizeParams(if w.Some? then w.value else DefaultWidth, if h.Some? then h.value else DefaultHeight)
  {
    var p, q := Base(env), PreviewPrefix(bucketId, fileId);
    var c := SizeParams(if w.Some? then w.value else DefaultWidth, if h.Some? then h.value else DefaultHeight);
    var d := ProjectParam(Interpolate(env.projectId));
    assert GetImageUrl(env, bucketId, fileId, w, h) == p + (q + (c + d));
    MiddleOfConcat(p, q, c, d);
  }

  /** In `p + (q + (c + d))`, the part `c` lies between the lengths of `p + q` and of `d`. */
  lemma MiddleOfConcat(p: string, q: string, c: string, d: string)
    ensures var s := p + (q + (c + d));
      |p + q| <= |s| - |d| && s[|p + q|..|s| - |d|] == c
  {
    assert p + (q + (c + d)) == (p + q) + c + d;
  }

  lemma NestedConcatEnds(a: string, b: string, c: string, d: string)
    ensures StartsWith(a + (b + (c + d)), a + b) && EndsWith(a + (b + (c + d)), d)
  {
    assert a + (b + (c + d)) == (a + b) + (c + d) == (a + b + c) + d;
    ConcatEnds(a + b, c + d);
    ConcatEnds(a + b + c, d);
  }

  /** Omitting width and height is asking for 400 by 300. */
  lemma DefaultSize(env: Env, bucketId: string, fileId: string)
    ensures GetImageUrl(env, bucketId, fileId, None, None)
         == GetImageUrl(env, bucketId, fileId, Some(DefaultWidth), Some(DefaultHeight))
  {
  }

  /** In tunnel mode neither the endpoint nor the emptiness of the ids matters. */
  lemma TunnelIgnoresEndpoint(env: Env, endpoint: Option<string>, bucketId: string, fileId: string, w: Option<int>, h: Option<int>)
    requires TunnelMode(env)
    ensures GetImageUrl(env.(endpoint := endpoint), bucketId, fileId, w, h) == GetImageUrl(env, bucketId, fileId, w, h)
    ensures GetImageUrl(env, bucketId, fileId, w, h) != ""
  {
  }

  /** The direct URL does not add a second `/v1` after the endpoint. */
  lemma DirectUrlHasNoExtraVersion(env: Env, bucketId: string, fileId: string, w: Option<int>, h: Option<int>)
    requires !TunnelMode(env) && !MissingParams(env, bucketId, fileId)
    ensures var url := GetImageUrl(env, bucketId, fileId, w, h);
      var e := |env.endpoint.value|;
      |url| > e + 3 && url[..e] == env.endpoint.value && url[e..e + 3] != "/v1"
  {
    var rest := PreviewPath(bucketId, fileId, if w.Some? then w.value else DefaultWidth, if h.Some? then h.value else DefaultHeight, env.projectId.value);
    assert GetImageUrl(env, bucketId, fileId, w, h) == env.endpoint.value + rest;
    PreviewPathStart(bucketId, fileId, if w.Some? then w.value else DefaultWidth, if h.Some? then h.value else DefaultHeight, env.projectId.value);
    FrontOfConcat(env.endpoint.value, rest);
  }

  /** The preview path starts with "/st" of "/storage", never with "/v1". */
  lemma PreviewPathStart(bucketId: string, fileId: string, width: int, height: int, project: string)
    ensures var r := PreviewPath(bucketId, fileId, width, height, project);
      |r| > 3 && r[..3] == "/st"
  {
    var r := PreviewPath(bucketId, fileId, width, height, project);
    assert r[0] == '/' && r[1] == 's' && r[2] == 't';
    assert r[..3] == [r[0], r[1], r[2]];
  }

  /** What follows a prefix in a concatenation is the second part. */
  lemma FrontOfConcat(x: string, y: string)
    requires |y| > 3
    ensures |x + y| > |x| + 3 && (x + y)[..|x|] == x && (x + y)[|x|..|x| + 3] == y[..3]
  {
  }
}
