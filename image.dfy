/** The `Image` component: renders nothing without a usable file URL, and
    otherwise an `<img>` whose source is the file URL with the width, quality
    and format query parameters appended. */
module ImageComponent {
  import opened Text

  datatype Format = Webp | Avif | Jpeg | Png

  datatype Loading = Lazy | Eager

  /** The CMS image record; both fields may be missing. */
  datatype BlockImage = BlockImage(url: Option<string>, alt: Option<string>)

  /** The component's props. `extraSrc` and `extraAlt` are `src` and `alt`
      passed among the remaining `<img>` attributes, which are spread last. */
  datatype ImageProps = ImageProps(
    file: Option<BlockImage>,
    width: Option<int>,
    height: Option<int>,
    quality: Option<int>,
    format: Option<Format>,
    priority: Option<bool>,
    loading: Option<Loading>,
    extraSrc: Option<string>,
    extraAlt: Option<string>)

  /** The attributes of the rendered `<img>` that the model follows. */
  datatype ImgAttributes = ImgAttributes(
    src: string,
    alt: string,
    width: Option<int>,
    height: Option<int>,
    loading: Loading)

  /** The query parameters read back from an optimized URL. */
  datatype QueryParams = QueryParams(width: Option<int>, quality: int, format: Format)

  function GetOr<T>(o: Option<T>, default: T): T
  {
    if o.Some? then o.value else default
  }

  function FormatOf(name: string): Option<Format>
  {
    if name == "webp" then Some(Webp)
    else if name == "avif" then Some(Avif)
    else if name == "jpeg" then Some(Jpeg)
    else if name == "png" then Some(Png)
    else None
  }

  function FormatName(f: Format): (name: string)
    ensures FormatOf(name) == Some(f)
    ensures '&' !in name
  {
    match f
    case Webp => "webp"
    case Avif => "avif"
    case Jpeg => "jpeg"
    case Png => "png"
  }

  /** `${width || ''}`: a missing or zero width leaves the value empty. */
  function WidthParam(width: Option<int>): (s: string)
    ensures s == "" <==> width.None? || width.value == 0
    ensures '&' !in s
  {
    if width.None? || width.value == 0 then ""
    else
      IntToStringAvoids(width.value, '&');
      IntToString(width.value)
  }

  /** The width the URL carries: zero reads as absent. */
  function NormalWidth(width: Option<int>): Option<int>
  {
    if width == Some(0) then None else width
  }

  /** `?` starts the query, or `&` continues the one the URL already has. */
  function Separator(url: string): (sep: string)
    ensures sep == "&" <==> '?' in url
    ensures sep == "?" <==> '?' !in url
  {
    if '?' in url then "&" else "?"
  }

  /** `w=${width || ''}&q=${quality}&format=${format}`. */
  function QueryTail(width: Option<int>, quality: int, format: Format): (tail: string)
    ensures "w=" <= tail
    ensures ReadParams(tail) == Some(QueryParams(NormalWidth(width), quality, format))
  {
    ReadQueryTail(width, quality, format);
    ("w=" + WidthParam(width)) + "&" + (("q=" + IntToString(quality)) + "&" + ("format=" + FormatName(format)))
  }

  /** The `optimizedSrc` template string. */
  function OptimizedSrc(url: string, width: Option<int>, quality: int, format: Format): (src: string)
    ensures url <= src && |src| > |url|
    ensures src[|url|] == '&' <==> '?' in url
    ensures src[|url|] == '?' <==> '?' !in url
  {
    url + Separator(url) + QueryTail(width, quality, format)
  }

  // ---------------------------------------------------------------------------
  // Reading an optimized URL back
  // ---------------------------------------------------------------------------

  /** The value of a `key=value` part, when the part starts with `key`. */
  function Field(key: string, part: string): Option<string>
  {
    if key <= part then Some(part[|key|..]) else None
  }

  function ReadWidth(value: string): Option<Option<int>>
  {
    if value == "" then Some(None)
    else
      match ParseInt(value)
      case Some(n) => Some(Some(n))
      case None => None
  }

  /** Parses `w=…&q=…&format=…`. */
  function ReadParams(tail: string): Option<QueryParams>
  {
    var parts := SplitOn(tail, '&');
    if |parts| != 3 then None
    else
      var w, q, f := Field("w=", parts[0]), Field("q=", parts[1]), Field("format=", parts[2]);
      if w.None? || q.None? || f.None? then None
      else
        var width, quality, format := ReadWidth(w.value), ParseInt(q.value), FormatOf(f.value);
        if width.None? || quality.None? || format.None? then None
        else Some(QueryParams(width.value, quality.value, format.value))
  }

  /** Reads the parameters off a source built from `url`, checking that it
      starts with `url` and the separator `url` calls for. */
  function ReadOptimized(url: string, src: string): Option<QueryParams>
  {
    if |src| > |url| && src[..|url|] == url && [src[|url|]] == Separator(url)
    then ReadParams(src[|url| + 1..])
    else None
  }

  lemma FieldOf(key: string, value: string)
    ensures Field(key, key + value) == Some(value)
  {
  }

  lemma ReadWidthParam(width: Option<int>)
    ensures ReadWidth(WidthParam(width)) == Some(NormalWidth(width))
  {
    if width.Some? && width.value != 0 {
      ParseIntToString(width.value);
    }
  }

  /** The parameters come in the order w, q, format and read back as written,
      with a zero width read as absent. */
  lemma ReadQueryTail(width: Option<int>, quality: int, format: Format)
    ensures var tail := ("w=" + WidthParam(width)) + "&" + (("q=" + IntToString(quality)) + "&" + ("format=" + FormatName(format)));
            ReadParams(tail) == Some(QueryParams(NormalWidth(width), quality, format))
  {
    var a, b, c := "w=" + WidthParam(width), "q=" + IntToString(quality), "format=" + FormatName(format);
    IntToStringAvoids(quality, '&');
    assert '&' !in a && '&' !in b && '&' !in c;
    assert "&" == ['&'];
    SplitOnPiece(c, '&');
    SplitOnJoin(b, c, '&');
    SplitOnJoin(a, b + "&" + c, '&');
    assert SplitOn(a + "&" + (b + "&" + c), '&') == [a, b, c];
    FieldOf("w=", WidthParam(width));
    FieldOf("q=", IntToString(quality));
    FieldOf("format=", FormatName(format));
    ReadWidthParam(width);
    ParseIntToString(quality);
  }

  /** The optimized source reads back to its URL and parameters. */
  lemma OptimizedSrcRoundTrip(url: string, width: Option<int>, quality: int, format: Format)
    ensures ReadOptimized(url, OptimizedSrc(url, width, quality, format))
            == Some(QueryParams(NormalWidth(width), quality, format))
  {
    var src := OptimizedSrc(url, width, quality, format);
    assert src[..|url|] == url;
    assert [src[|url|]] == Separator(url);
    assert src[|url| + 1..] == QueryTail(width, quality, format);
  }

  // ---------------------------------------------------------------------------
  // Rendering
  // ---------------------------------------------------------------------------

  /** `file?.url` is truthy: present and not empty. */
  function HasUrl(file: Option<BlockImage>): (truthy: bool)
    ensures truthy <==> file.Some? && file.value.url.Some? && |file.value.url.value| > 0
  {
    file.Some? && file.value.url.Some? && file.value.url.value != ""
  }

  /** The component: `None` is its `null`. */
  function Render(props: ImageProps): (r: Option<ImgAttributes>)
    ensures r.None? <==> !HasUrl(props.file)
    ensures r.Some? ==> r.value.width == props.width && r.value.height == props.height
    ensures r.Some? ==> (r.value.loading == Eager <==> GetOr(props.priority, false) || props.loading == Some(Eager))
    ensures r.Some? && props.extraSrc.Some? ==> r.value.src == props.extraSrc.value
    ensures r.Some? && props.extraSrc.None? ==>
              && props.file.value.url.value <= r.value.src
              && ReadOptimized(props.file.value.url.value, r.value.src)
                 == Some(QueryParams(NormalWidth(props.width), GetOr(props.quality, 80), GetOr(props.format, Webp)))
    ensures r.Some? && props.extraAlt.Some? ==> r.value.alt == props.extraAlt.value
    ensures r.Some? && props.extraAlt.None? ==> r.value.alt == GetOr(props.file.value.alt, "")
  {
    if !HasUrl(props.file) then None
    else
      var file := props.file.value;
      var url := file.url.value;
      var quality, format := GetOr(props.quality, 80), GetOr(props.format, Webp);
      OptimizedSrcRoundTrip(url, props.width, quality, format);
      var src := OptimizedSrc(url, props.width, quality, format);
      var alt := GetOr(file.alt, "");
      Some(ImgAttributes(
        GetOr(props.extraSrc, src),
        GetOr(props.extraAlt, alt),
        props.width,
        props.height,
        if GetOr(props.priority, false) then Eager else GetOr(props.loading, Lazy)))
  }
}
