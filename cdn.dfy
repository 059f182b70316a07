/**
 * Rewriting a local image path such as `/api/images/abc123.png` into a CDN
 * URL (packages/web/lib/cdn.ts). The file name is the last `/`-separated
 * piece of the path, and its stem drops a final `.ext`. Each provider then
 * builds its own URL. Numbers in the configuration are integers here.
 */
module Cdn {
  import opened Wrappers
  import Text

  datatype Transformations = Transformations(format: Option<string>, quality: Option<int>,
                                             width: Option<int>, height: Option<int>)

  datatype CdnConfig = CdnConfig(provider: string, baseUrl: Option<string>, cloudName: Option<string>,
                                 cloudflareAccountHash: Option<string>, transformations: Option<Transformations>)

  datatype CdnError = MissingCloudName | MissingAccountHash

  /** JavaScript truthiness of an optional string. */
  predicate StrSet(s: Option<string>)
  {
    s.Some? && s.value != ""
  }

  /** JavaScript truthiness of an optional integer. */
  predicate NumSet(n: Option<int>)
  {
    n.Some? && n.value != 0
  }

  function Format(cfg: CdnConfig): Option<string>
  {
    if cfg.transformations.Some? then cfg.transformations.value.format else None
  }

  function Quality(cfg: CdnConfig): Option<int>
  {
    if cfg.transformations.Some? then cfg.transformations.value.quality else None
  }

  function Width(cfg: CdnConfig): Option<int>
  {
    if cfg.transformations.Some? then cfg.transformations.value.width else None
  }

  function Height(cfg: CdnConfig): Option<int>
  {
    if cfg.transformations.Some? then cfg.transformations.value.height else None
  }

  // ------------------------------------------------------------ file names

  /** `localPath.split('/').pop() || ''`. */
  function FileName(localPath: string): string
  {
    var pieces := Text.Split(localPath, '/');
    pieces[|pieces| - 1]
  }

  /** The last '/' of a non-empty string, seen from its tail. */
  lemma LastIndexOfTail(s: string, c: char)
    requires |s| > 0
    ensures var r' := Text.LastIndexOf(s[1..], c);
      Text.LastIndexOf(s, c) == if r' >= 0 then r' + 1 else if s[0] == c then 0 else -1
  {
    var r := Text.LastIndexOf(s, c);
    var r' := Text.LastIndexOf(s[1..], c);
    if r' >= 0 {
      assert s[r' + 1] == c;
      assert forall j :: r' + 1 < j < |s| ==> s[j] == s[1..][j - 1];
    } else {
      assert forall j :: 0 < j < |s| ==> s[j] == s[1..][j - 1];
    }
  }

  /** A split yields a single piece exactly when the separator does not occur. */
  lemma {:induction false} SplitSingle(s: string, c: char)
    ensures |Text.Split(s, c)| == 1 <==> c !in s
    decreases |s|
  {
    if |s| > 0 {
      SplitSingle(s[1..], c);
      assert s == [s[0]] + s[1..];
    }
  }

  /** The file name is exactly the text after the last '/' (all of the path when it has none). */
  lemma {:induction false} FileNameAfterLastSlash(s: string)
    ensures FileName(s) == s[Text.LastIndexOf(s, '/') + 1..]
    decreases |s|
  {
    if |s| > 0 {
      FileNameAfterLastSlash(s[1..]);
      LastIndexOfTail(s, '/');
      if Text.LastIndexOf(s[1..], '/') >= 0 {
        FileNameSlashInTail(s);
      } else if s[0] == '/' {
        FileNameSlashAtHead(s);
      } else {
        assert Text.LastIndexOf(s, '/') == -1;
        FileNameNoSlash(s);
      }
    } else {
      FileNameNoSlash(s);
    }
  }

  /** Inductive step when the tail holds a '/': the last one is the tail's, one position on. */
  lemma FileNameSlashInTail(s: string)
    requires |s| > 0
    requires var t := s[1..]; FileName(t) == t[Text.LastIndexOf(t, '/') + 1..]
    requires Text.LastIndexOf(s[1..], '/') >= 0
    requires Text.LastIndexOf(s, '/') == Text.LastIndexOf(s[1..], '/') + 1
    ensures FileName(s) == s[Text.LastIndexOf(s, '/') + 1..]
  {
    var t := s[1..];
    var r' := Text.LastIndexOf(t, '/');
    assert t[r'] == '/';
    FileNameSkipsHead(s);
    assert s[r' + 2..] == t[r' + 1..];
  }

  /** Inductive step when the only '/' is the first character. */
  lemma FileNameSlashAtHead(s: string)
    requires |s| > 0 && s[0] == '/'
    requires var t := s[1..]; FileName(t) == t[Text.LastIndexOf(t, '/') + 1..]
    requires Text.LastIndexOf(s[1..], '/') < 0
    requires Text.LastIndexOf(s, '/') == 0
    ensures FileName(s) == s[Text.LastIndexOf(s, '/') + 1..]
  {
    FileNameSkipsHead(s);
  }

  /** Without any '/', the file name is the whole path. */
  lemma FileNameNoSlash(s: string)
    requires '/' !in s
    ensures FileName(s) == s
  {
    Text.SplitWithoutSeparator(s, '/');
  }

  /** When a '/' follows the first character, or is the first character, the first character is not part of the file name. */
  lemma FileNameSkipsHead(s: string)
    requires |s| > 0 && (s[0] == '/' || '/' in s[1..])
    ensures FileName(s) == FileName(s[1..])
  {
    var rest := Text.Split(s[1..], '/');
    if s[0] == '/' {
      assert Text.Split(s, '/') == [""] + rest;
    } else {
      assert Text.Split(s, '/') == [[s[0]] + rest[0]] + rest[1..];
      SplitSingle(s[1..], '/');
    }
  }

  /** `filename.replace(/\.[^/.]+$/, '')` matches at `k`: a '.' followed to the end by at least one character that is neither '/' nor '.'. */
  predicate ExtensionAt(f: string, k: int)
  {
    0 <= k < |f| - 1 && f[k] == '.' && forall j :: k < j < |f| ==> f[j] != '.' && f[j] != '/'
  }

  /** The file name without its final extension. */
  function Stem(f: string): string
  {
    var i := Text.LastIndexOf(f, '.');
    if 0 <= i < |f| - 1 && '/' !in f[i + 1..] then f[..i] else f
  }

  /** `Stem` removes exactly the regular expression's match, and leaves the name alone when there is none. */
  lemma StemSpec(f: string)
    ensures forall k :: ExtensionAt(f, k) ==> Stem(f) == f[..k]
    ensures (forall k :: !ExtensionAt(f, k)) ==> Stem(f) == f
  {
    var i := Text.LastIndexOf(f, '.');
    forall k | ExtensionAt(f, k)
      ensures Stem(f) == f[..k]
    {
      assert k <= i;
      assert f[i] == '.';
      assert i == k;
    }
    if 0 <= i < |f| - 1 && '/' !in f[i + 1..] {
      assert forall j :: i < j < |f| ==> f[j] == f[i + 1..][j - i - 1];
      assert ExtensionAt(f, i);
    }
  }

  // -------------------------------------------------------------- providers

  /** `URLSearchParams.toString()` for plain keys and numeric values. */
  function Query(params: seq<(string, string)>): string
  {
    Text.Join(seq(|params|, i requires 0 <= i < |params| => params[i].0 + "=" + params[i].1), '&')
  }

  lemma {:induction false} QueryEmpty(params: seq<(string, string)>)
    ensures Query(params) == "" <==> |params| == 0
  {
    var parts := seq(|params|, i requires 0 <= i < |params| => params[i].0 + "=" + params[i].1);
    if |params| == 1 {
      assert Text.Join(parts, '&') == parts[0];
    } else if |params| > 1 {
      assert |Text.Join(parts, '&')| >= |parts[0] + ['&']|;
    }
  }

  /** The query parameters CloudFront receives, in the order they are appended. */
  function CloudFrontParams(cfg: CdnConfig): seq<(string, string)>
  {
    var quality := if NumSet(Quality(cfg)) then Quality(cfg).value else 85;
    (if quality < 100 then [("quality", Text.IntToString(quality))] else [])
    + (if NumSet(Width(cfg)) then [("width", Text.IntToString(Width(cfg).value))] else [])
    + (if NumSet(Height(cfg)) then [("height", Text.IntToString(Height(cfg).value))] else [])
  }

  /** `transformCloudFrontUrl(filename, config)`. */
  function CloudFrontUrl(stem: string, cfg: CdnConfig): string
  {
    var format := if StrSet(Format(cfg)) then Format(cfg).value else "webp";
    var url := cfg.baseUrl.GetOr("undefined") + "/" + stem + "." + format;
    var q := Query(CloudFrontParams(cfg));
    if q != "" then url + "?" + q else url
  }

  /** The CloudFront transform as it is written: appending to a parameter list. */
  method TransformCloudFrontUrl(stem: string, cfg: CdnConfig) returns (url: string)
    ensures url == CloudFrontUrl(stem, cfg)
  {
    var format := if StrSet(Format(cfg)) then Format(cfg).value else "webp";
    var quality := if NumSet(Quality(cfg)) then Quality(cfg).value else 85;
    url := cfg.baseUrl.GetOr("undefined") + "/" + stem + "." + format;
    var params: seq<(string, string)> := [];
    if quality < 100 {
      params := params + [("quality", Text.IntToString(quality))];
    }
    if NumSet(Width(cfg)) {
      params := params + [("width", Text.IntToString(Width(cfg).value))];
    }
    if NumSet(Height(cfg)) {
      params := params + [("height", Text.IntToString(Height(cfg).value))];
    }
    assert params == CloudFrontParams(cfg);
    var q := Query(params);
    if q != "" {
      url := url + "?" + q;
    }
  }

  /**
   * CloudFront: `quality` is sent only below 100 and first, then width,
   * then height; without parameters the URL has no query part.
   */
  lemma CloudFrontShape(stem: string, cfg: CdnConfig)
    ensures var format := if StrSet(Format(cfg)) then Format(cfg).value else "webp";
      var url := cfg.baseUrl.GetOr("undefined") + "/" + stem + "." + format;
      var p := CloudFrontParams(cfg);
      (|p| == 0 ==> CloudFrontUrl(stem, cfg) == url) &&
      (|p| > 0 ==> CloudFrontUrl(stem, cfg) == url + "?" + Query(p)) &&
      (|p| > 0 && p[0].0 == "quality" <==> (if NumSet(Quality(cfg)) then Quality(cfg).value else 85) < 100) &&
      (forall i :: 0 <= i < |p| ==> p[i].0 in {"quality", "width", "height"}) &&
      |p| <= 3
  {
    QueryEmpty(CloudFrontParams(cfg));
  }

  /** With no transformations CloudFront serves `<stem>.webp?quality=85`. */
  lemma CloudFrontDefaults(stem: string, base: string, cfg: CdnConfig)
    requires cfg.baseUrl == Some(base) && cfg.transformations == None
    ensures CloudFrontUrl(stem, cfg) == base + "/" + stem + ".webp?quality=85"
  {
    assert Text.IntToString(85) == "85" by {
      assert Text.NatToString(8) == "8";
    }
    assert CloudFrontParams(cfg) == [("quality", "85")];
    var parts := seq(1, i requires 0 <= i < 1 => CloudFrontParams(cfg)[i].0 + "=" + CloudFrontParams(cfg)[i].1);
    assert "quality" + "=" + "85" == "quality=85";
    assert parts == ["quality=85"];
    assert Query(CloudFrontParams(cfg)) == "quality=85";
  }

  /** The Cloudinary transformation list, in the order it is built. */
  function CloudinaryTransformations(cfg: CdnConfig): seq<string>
  {
    QualityPart(cfg) + FormatPart(cfg) + WidthPart(cfg) + HeightPart(cfg)
  }

  function QualityPart(cfg: CdnConfig): seq<string>
  {
    [if NumSet(Quality(cfg)) then "q_" + Text.IntToString(Quality(cfg).value) else "q_auto"]
  }

  function FormatPart(cfg: CdnConfig): seq<string>
  {
    if StrSet(Format(cfg)) then ["f_" + Format(cfg).value] else []
  }

  function WidthPart(cfg: CdnConfig): seq<string>
  {
    if NumSet(Width(cfg)) then ["w_" + Text.IntToString(Width(cfg).value)] else []
  }

  function HeightPart(cfg: CdnConfig): seq<string>
  {
    if NumSet(Height(cfg)) then ["h_" + Text.IntToString(Height(cfg).value)] else []
  }

  /** `transformCloudinaryUrl(filename, config)`. */
  function CloudinaryUrl(stem: string, cfg: CdnConfig): Result<string, CdnError>
  {
    if !StrSet(cfg.cloudName) then Err(MissingCloudName)
    else Ok("https://res.cloudinary.com/" + cfg.cloudName.value + "/image/upload/"
            + Text.Join(CloudinaryTransformations(cfg), ',') + "/" + stem + ".png")
  }

  /** The Cloudinary transform as it is written: pushing onto a list. */
  method TransformCloudinaryUrl(stem: string, cfg: CdnConfig) returns (r: Result<string, CdnError>)
    ensures r == CloudinaryUrl(stem, cfg)
  {
    if !StrSet(cfg.cloudName) {
      return Err(MissingCloudName);
    }
    var transformations: seq<string> := [];
    if NumSet(Quality(cfg)) {
      transformations := transformations + ["q_" + Text.IntToString(Quality(cfg).value)];
    } else {
      transformations := transformations + ["q_auto"];
    }
    assert transformations == QualityPart(cfg);
    if StrSet(Format(cfg)) {
      transformations := transformations + ["f_" + Format(cfg).value];
    }
    assert transformations == QualityPart(cfg) + FormatPart(cfg);
    if NumSet(Width(cfg)) {
      transformations := transformations + ["w_" + Text.IntToString(Width(cfg).value)];
    }
    assert transformations == QualityPart(cfg) + FormatPart(cfg) + WidthPart(cfg);
    if NumSet(Height(cfg)) {
      transformations := transformations + ["h_" + Text.IntToString(Height(cfg).value)];
    }
    assert transformations == CloudinaryTransformations(cfg);
    r := Ok("https://res.cloudinary.com/" + cfg.cloudName.value + "/image/upload/"
            + Text.Join(transformations, ',') + "/" + stem + ".png");
  }

  /**
   * Cloudinary: fails without a cloud name; the quality comes first (`q_auto`
   * when unset) and the format, width and height follow in that order; the
   * URL always ends with `/<stem>.png`, whatever the format.
   */
  lemma CloudinaryShape(stem: string, cfg: CdnConfig)
    ensures CloudinaryUrl(stem, cfg).Err? <==> !StrSet(cfg.cloudName)
    ensures var t := CloudinaryTransformations(cfg);
      1 <= |t| <= 4 && t[0][..2] == "q_" &&
      (t[0] == "q_auto" <==> !NumSet(Quality(cfg))) &&
      (StrSet(Format(cfg)) ==> t[1] == "f_" + Format(cfg).value)
    ensures var u := CloudinaryUrl(stem, cfg);
      u.Ok? ==> |u.value| >= |stem| + 5 && u.value[|u.value| - |stem| - 5..] == "/" + stem + ".png"
  {
    var t := CloudinaryTransformations(cfg);
    if NumSet(Quality(cfg)) {
      var q := Text.IntToString(Quality(cfg).value);
      assert q[0] == '-' || Text.IsDigit(q[0]);
      assert t[0] == "q_" + q;
      assert t[0][2] == q[0] && "q_auto"[2] == 'a';
    }
    var u := CloudinaryUrl(stem, cfg);
    if u.Ok? {
      var head := "https://res.cloudinary.com/" + cfg.cloudName.value + "/image/upload/" + Text.Join(t, ',');
      assert u.value == head + ("/" + stem + ".png");
    }
  }

  /** `transformCloudflareUrl(filename, config)`: the variant is the format, else `public`. */
  function CloudflareUrl(stem: string, cfg: CdnConfig): (r: Result<string, CdnError>)
    ensures r.Err? <==> !StrSet(cfg.cloudflareAccountHash)
  {
    if !StrSet(cfg.cloudflareAccountHash) then Err(MissingAccountHash)
    else
      var variant := if StrSet(Format(cfg)) then Format(cfg).value else "public";
      Ok("https://imagedelivery.net/" + cfg.cloudflareAccountHash.value + "/" + stem + "/" + variant)
  }

  /** `transformCustomCDNUrl(filename, config)`: the file name keeps its extension. */
  function CustomUrl(fileName: string, cfg: CdnConfig): string
  {
    cfg.baseUrl.GetOr("undefined") + "/" + fileName
  }

  /** `getCDNUrl(localPath, config)`. */
  function CdnUrl(localPath: string, cfg: CdnConfig): Result<string, CdnError>
  {
    if cfg.provider == "none" || !StrSet(cfg.baseUrl) then Ok(localPath)
    else
      var fileName := FileName(localPath);
      var stem := Stem(fileName);
      match cfg.provider
      case "cloudfront" => Ok(CloudFrontUrl(stem, cfg))
      case "cloudinary" => CloudinaryUrl(stem, cfg)
      case "cloudflare" => CloudflareUrl(stem, cfg)
      case "custom" => Ok(CustomUrl(fileName, cfg))
      case _ => Ok(localPath)
  }

  /**
   * The local path comes back unchanged when the CDN is off, when it has no
   * base URL (so Cloudinary and Cloudflare do not fail then), and for an
   * unknown provider; only Cloudinary and Cloudflare can fail, each for its
   * own missing setting.
   */
  lemma CdnUrlCases(localPath: string, cfg: CdnConfig)
    ensures cfg.provider == "none" || !StrSet(cfg.baseUrl) ==> CdnUrl(localPath, cfg) == Ok(localPath)
    ensures cfg.provider !in {"cloudfront", "cloudinary", "cloudflare", "custom"} ==> CdnUrl(localPath, cfg) == Ok(localPath)
    ensures CdnUrl(localPath, cfg).Err? <==>
      StrSet(cfg.baseUrl) &&
      ((cfg.provider == "cloudinary" && !StrSet(cfg.cloudName)) ||
       (cfg.provider == "cloudflare" && !StrSet(cfg.cloudflareAccountHash)))
    ensures cfg.provider == "custom" && StrSet(cfg.baseUrl) ==>
      CdnUrl(localPath, cfg) == Ok(cfg.baseUrl.value + "/" + localPath[Text.LastIndexOf(localPath, '/') + 1..])
  {
    FileNameAfterLastSlash(localPath);
  }
}
