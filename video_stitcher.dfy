/**
 * The stitcher's decisions: the transition length, the linear crossfade filter
 * chain with its running offsets, the input guards, the clip file names and the
 * order of the file-system and encoder effects of one stitching call.
 *
 * Durations are exact reals. Downloads, probes, the encoder and the output file
 * are the injected outcomes of `StitchEnv`; `Promise.all` is taken in index order.
 */
module VideoStitcher {
  import opened Common
  import opened Text
  import opened JsValue
  import VideoPipeline

  const DefaultTransitionDurationSeconds: real := 0.35
  const MinTransitionDurationSeconds: real := 0.1
  const VercelError: string := "Video stitching is disabled on Vercel deployments."
  const NoClipsError: string := "At least one clip URL is required for stitching."
  const Mp4: string := "video/mp4"
  const DataUrlPrefix: string := "data:" + Mp4 + ";base64,"

  function Max(a: real, b: real): real { if a >= b then a else b }
  function Min(a: real, b: real): real { if a <= b then a else b }

  /** `normalizePositiveNumber`: the value iff it is a finite number above zero, else the fallback. */
  function NormalizePositiveNumber(value: Option<Num>, fallback: real): (r: real)
    ensures value.Some? && value.value.Finite? && value.value.value > 0.0 ==> r == value.value.value
    ensures !(value.Some? && value.value.Finite? && value.value.value > 0.0) ==> r == fallback
  {
    if value.Some? && value.value.Finite? && value.value.value > 0.0 then value.value.value else fallback
  }

  /** `Math.min(...durations)` for a non-empty list: a lower bound that is one of the durations. */
  function Shortest(durations: seq<real>): (r: real)
    requires |durations| > 0
    ensures forall i :: 0 <= i < |durations| ==> r <= durations[i]
    ensures exists i :: 0 <= i < |durations| && r == durations[i]
  {
    if |durations| == 1 then durations[0]
    else
      var rest := Shortest(durations[1..]);
      assert forall i :: 1 <= i < |durations| ==> durations[i] == durations[1..][i - 1];
      Min(durations[0], rest)
  }

  /**
   * `chooseTransitionDuration`: the normalised request, capped by half the shortest clip
   * but never capped below 0.1 s. With no durations `Math.min()` is `Infinity`, so no cap.
   */
  function ChooseTransitionDuration(durations: seq<real>, requested: Option<Num>): (t: real)
    ensures var req := NormalizePositiveNumber(requested, DefaultTransitionDurationSeconds);
      && 0.0 < t <= req
      && (|durations| == 0 ==> t == req)
      && (req >= MinTransitionDurationSeconds ==> t >= MinTransitionDurationSeconds)
      && (|durations| > 0 ==> t <= Max(Shortest(durations) / 2.0, MinTransitionDurationSeconds))
      && (t == req || (|durations| > 0 && t == Max(Shortest(durations) / 2.0, MinTransitionDurationSeconds)))
  {
    var req := NormalizePositiveNumber(requested, DefaultTransitionDurationSeconds);
    if |durations| == 0 then req
    else Min(req, Max(Shortest(durations) / 2.0, MinTransitionDurationSeconds))
  }

  /** An absent request becomes 0.35 s before clamping. */
  lemma AbsentRequestUsesDefault(durations: seq<real>)
    requires forall i :: 0 <= i < |durations| ==> durations[i] >= 0.7
    ensures ChooseTransitionDuration(durations, None) == DefaultTransitionDurationSeconds
  {
    if |durations| > 0 {
      var k :| 0 <= k < |durations| && Shortest(durations) == durations[k];
    }
  }

  /** When the shortest clip is under 0.2 s the floor of 0.1 s wins over half its length. */
  lemma TransitionMayExceedHalfShortest()
    ensures ChooseTransitionDuration([0.1, 0.1], None) == 0.1
    ensures ChooseTransitionDuration([0.1, 0.1], None) > Shortest([0.1, 0.1]) / 2.0
  {
    assert Shortest([0.1, 0.1]) == 0.1 by {
      assert [0.1, 0.1][1..] == [0.1];
    }
  }

  /** The filter-graph labels `v{i}` and `vx{i}`. */
  datatype Label = V(index: nat) | VX(index: nat)

  function LabelName(l: Label): string {
    match l
    case V(i) => "v" + NatToString(i)
    case VX(i) => "vx" + NatToString(i)
  }

  /** A stage of the complex filter: `[i:v]settb=AVTB,format=yuv420p[vi]` or an `xfade` of two labels. */
  datatype FilterStage =
    | Normalize(input: nat, output: Label)
    | Xfade(first: Label, second: Label, duration: real, offset: real, output: Label)

  datatype FilterGraph = FilterGraph(filters: seq<FilterStage>, videoLabel: Label)

  /** `s[0] + ... + s[|s| - 1]`. */
  function Sum(s: seq<real>): real {
    if |s| == 0 then 0.0 else Sum(s[..|s| - 1]) + s[|s| - 1]
  }

  /** The running `elapsed` once clips `0..i-1` are chained: each later clip adds its length less one transition. */
  function Elapsed(durations: seq<real>, t: real, i: nat): real
    requires 1 <= i <= |durations|
  {
    if i == 1 then durations[0] else Elapsed(durations, t, i - 1) + durations[i - 1] - t
  }

  /** The offset of the xfade that brings in clip `i`: the running elapsed less one transition, floored at 0. */
  function Offset(durations: seq<real>, t: real, i: nat): (r: real)
    requires 1 <= i <= |durations|
    ensures r >= 0.0 && r >= Elapsed(durations, t, i) - t
  {
    Max(Elapsed(durations, t, i) - t, 0.0)
  }

  /** The running elapsed is the plain sum less `i - 1` transitions: nothing in between is clamped. */
  lemma {:induction false} ElapsedClosedForm(durations: seq<real>, t: real, i: nat)
    requires 1 <= i <= |durations|
    ensures Elapsed(durations, t, i) == Sum(durations[..i]) - ((i - 1) as real) * t
  {
    if i == 1 {
      assert durations[..1] == [durations[0]];
      assert durations[..1][..0] == [];
    } else {
      ElapsedClosedForm(durations, t, i - 1);
      assert durations[..i][..i - 1] == durations[..i - 1];
      assert ((i - 1) as real) * t == ((i - 2) as real) * t + t;
    }
  }

  /** Offset of the xfade bringing in clip `i` is `max(d[0] + ... + d[i-1] - i * t, 0)`. */
  lemma OffsetClosedForm(durations: seq<real>, t: real, i: nat)
    requires 1 <= i <= |durations|
    ensures Offset(durations, t, i) == Max(Sum(durations[..i]) - (i as real) * t, 0.0)
  {
    ElapsedClosedForm(durations, t, i);
    assert (i as real) * t == ((i - 1) as real) * t + t;
  }

  /** The label the xfade that brings in clip `i` starts from. */
  function PreviousLabel(i: nat): Label {
    if i <= 1 then V(0) else VX(i - 1)
  }

  function XfadeStage(durations: seq<real>, t: real, i: nat): FilterStage
    requires 1 <= i < |durations|
  {
    Xfade(PreviousLabel(i), V(i), t, Offset(durations, t, i), VX(i))
  }

  /** The normalise stages of inputs `0..n-1`, in index order. */
  function NormalizeStages(n: nat): (r: seq<FilterStage>)
    ensures |r| == n
  {
    if n == 0 then [] else NormalizeStages(n - 1) + [Normalize(n - 1, V(n - 1))]
  }

  /** The xfade stages that bring in clips `1..k-1`, in order. */
  function XfadeStages(durations: seq<real>, t: real, k: nat): (r: seq<FilterStage>)
    requires k <= |durations|
    ensures |r| == if k == 0 then 0 else k - 1
  {
    if k <= 1 then [] else XfadeStages(durations, t, k - 1) + [XfadeStage(durations, t, k - 1)]
  }

  /** The graph for `n` clips: `n` normalise stages then `n - 1` xfades; the last label is `v0` or `vx{n-1}`. */
  function CrossfadeGraph(durations: seq<real>, t: real): (g: FilterGraph)
    ensures |g.filters| == if |durations| == 0 then 0 else 2 * |durations| - 1
  {
    var n := |durations|;
    FilterGraph(NormalizeStages(n) + XfadeStages(durations, t, n), if n <= 1 then V(0) else VX(n - 1))
  }

  /** `buildVideoCrossfadeFilters`. */
  method BuildVideoCrossfadeFilters(durations: seq<real>, transitionDurationSeconds: real) returns (g: FilterGraph)
    ensures g == CrossfadeGraph(durations, transitionDurationSeconds)
  {
    var n := |durations|;
    var t := transitionDurationSeconds;
    var filters: seq<FilterStage> := [];
    var index := 0;
    while index < n
      invariant 0 <= index <= n
      invariant filters == NormalizeStages(index)
    {
      filters := filters + [Normalize(index, V(index))];
      index := index + 1;
    }
    var currentVideo := V(0);
    var elapsed := if n > 0 then durations[0] else 0.0;
    index := 1;
    while index < n
      invariant 1 <= index <= if n == 0 then 1 else n
      invariant currentVideo == PreviousLabel(index)
      invariant n > 0 ==> elapsed == Elapsed(durations, t, index)
      invariant filters == NormalizeStages(n) + XfadeStages(durations, t, if n == 0 then 0 else index)
    {
      var outputLabel := VX(index);
      var offsetSeconds := Max(elapsed - t, 0.0);
      filters := filters + [Xfade(currentVideo, V(index), t, offsetSeconds, outputLabel)];
      currentVideo := outputLabel;
      elapsed := elapsed + durations[index] - t;
      index := index + 1;
    }
    g := FilterGraph(filters, currentVideo);
  }

  lemma {:induction false} NormalizeStagesAt(n: nat, i: nat)
    requires i < n
    ensures NormalizeStages(n)[i] == Normalize(i, V(i))
  {
    if i < n - 1 {
      NormalizeStagesAt(n - 1, i);
    }
  }

  lemma {:induction false} XfadeStagesAt(durations: seq<real>, t: real, k: nat, i: nat)
    requires 1 <= i < k <= |durations|
    ensures XfadeStages(durations, t, k)[i - 1] == XfadeStage(durations, t, i)
  {
    if i < k - 1 {
      XfadeStagesAt(durations, t, k - 1, i);
    }
  }

  /**
   * The xfade that brings in clip `i` sits at position `n + i - 1`; it starts from `v0` (for
   * `i = 1`) or from the previous xfade's output, and takes the output of clip `i`'s
   * normalise stage as its second input.
   */
  lemma CrossfadeChainLink(durations: seq<real>, t: real, i: nat)
    requires 1 <= i < |durations|
    ensures var g := CrossfadeGraph(durations, t); var n := |durations|;
      && g.filters[n + i - 1] == XfadeStage(durations, t, i)
      && g.filters[n + i - 1].second == g.filters[i].output
      && g.filters[n + i - 1].first == g.filters[if i == 1 then 0 else n + i - 2].output
  {
    var n := |durations|;
    XfadeStagesAt(durations, t, n, i);
    NormalizeStagesAt(n, i);
    NormalizeStagesAt(n, 0);
    if i >= 2 {
      XfadeStagesAt(durations, t, n, i - 1);
    }
  }

  /** The first `n` stages normalise the inputs in index order, and the graph's label is its last stage's output. */
  lemma CrossfadeGraphEnds(durations: seq<real>, t: real, i: nat)
    requires i < |durations|
    ensures var g := CrossfadeGraph(durations, t);
      && g.filters[i] == Normalize(i, V(i))
      && g.videoLabel == g.filters[|g.filters| - 1].output
  {
    var n := |durations|;
    NormalizeStagesAt(n, i);
    NormalizeStagesAt(n, n - 1);
    if n >= 2 {
      XfadeStagesAt(durations, t, n, n - 1);
    }
  }

  /** Once clip `i` is at least as long as the transition, the next offset does not move backwards. */
  lemma OffsetsMonotone(durations: seq<real>, t: real, i: nat)
    requires 1 <= i < |durations| && t <= durations[i]
    ensures Offset(durations, t, i) <= Offset(durations, t, i + 1)
  {
  }

  /** The running total is not clamped: after two 0.1 s clips with 0.35 s fades it is already negative. */
  lemma ElapsedIsNotClamped()
    ensures Elapsed([0.1, 0.1, 1.0], 0.35, 2) < 0.0
    ensures Offset([0.1, 0.1, 1.0], 0.35, 2) == 0.0
  {
  }

  /** What `new URL(...)` yields that the stitcher reads. */
  datatype UrlParts = UrlParts(protocol: string, pathname: string, href: string)

  /** `normalizeClipUrl`: parse the trimmed string; only `http:` and `https:` pass, serialised. */
  function NormalizeClipUrl(value: string, parseUrl: string -> Result<UrlParts>): (r: Result<UrlParts>)
    ensures r.Ok? ==> r.value.protocol == "http:" || r.value.protocol == "https:"
    ensures r.Ok? <==> parseUrl(Trim(value)).Ok? && parseUrl(Trim(value)).value.protocol in {"http:", "https:"}
  {
    match parseUrl(Trim(value))
    case Err(m) => Err(m)
    case Ok(url) =>
      if url.protocol != "http:" && url.protocol != "https:" then Err("Unsupported clip URL protocol: " + url.protocol)
      else Ok(url)
  }

  /** `clipUrls.map(normalizeClipUrl)` from index `from` on: the first failure in list order, or every parsed URL. */
  function NormalizeClipUrlsFrom(clipUrls: seq<string>, from: nat, parseUrl: string -> Result<UrlParts>): (r: Result<seq<UrlParts>>)
    requires from <= |clipUrls|
    ensures r.Ok? <==> forall i :: from <= i < |clipUrls| ==> NormalizeClipUrl(clipUrls[i], parseUrl).Ok?
    ensures r.Ok? ==> |r.value| == |clipUrls| - from
    ensures r.Ok? ==> forall i :: from <= i < |clipUrls| ==> r.value[i - from] == NormalizeClipUrl(clipUrls[i], parseUrl).value
    decreases |clipUrls| - from
  {
    if from == |clipUrls| then Ok([])
    else
      var first := NormalizeClipUrl(clipUrls[from], parseUrl);
      if first.Err? then Err(first.message)
      else
        var rest := NormalizeClipUrlsFrom(clipUrls, from + 1, parseUrl);
        if rest.Err? then rest else Ok([first.value] + rest.value)
  }

  /** `clipUrls[k]` is the first entry from `from` on that `normalizeClipUrl` rejects, with `message`. */
  ghost predicate FirstBadClipUrl(clipUrls: seq<string>, from: nat, k: nat, parseUrl: string -> Result<UrlParts>, message: string)
    requires from <= k < |clipUrls|
  {
    && NormalizeClipUrl(clipUrls[k], parseUrl) == Err(message)
    && forall j :: from <= j < k ==> NormalizeClipUrl(clipUrls[j], parseUrl).Ok?
  }

  /**
   * `clipUrls.map(normalizeClipUrl)`: every URL parsed, in order, or the error of the
   * first one that is rejected.
   */
  function NormalizeClipUrls(clipUrls: seq<string>, parseUrl: string -> Result<UrlParts>): (r: Result<seq<UrlParts>>)
    ensures r.Ok? <==> forall i :: 0 <= i < |clipUrls| ==> NormalizeClipUrl(clipUrls[i], parseUrl).Ok?
    ensures r.Ok? ==> |r.value| == |clipUrls|
    ensures r.Ok? ==> forall i :: 0 <= i < |clipUrls| ==> r.value[i] == NormalizeClipUrl(clipUrls[i], parseUrl).value
    ensures r.Err? ==> exists k :: 0 <= k < |clipUrls| && FirstBadClipUrl(clipUrls, 0, k, parseUrl, r.message)
  {
    NormalizeFirstError(clipUrls, 0, parseUrl);
    NormalizeClipUrlsFrom(clipUrls, 0, parseUrl)
  }

  /** A failed normalisation carries the error of the first entry rejected from `from` on. */
  lemma {:induction false} NormalizeFirstError(clipUrls: seq<string>, from: nat, parseUrl: string -> Result<UrlParts>)
    requires from <= |clipUrls|
    ensures var r := NormalizeClipUrlsFrom(clipUrls, from, parseUrl);
      r.Err? ==> exists k :: from <= k < |clipUrls| && FirstBadClipUrl(clipUrls, from, k, parseUrl, r.message)
    decreases |clipUrls| - from
  {
    var r := NormalizeClipUrlsFrom(clipUrls, from, parseUrl);
    if from < |clipUrls| && r.Err? {
      if NormalizeClipUrl(clipUrls[from], parseUrl).Err? {
        assert FirstBadClipUrl(clipUrls, from, from, parseUrl, r.message);
      } else {
        NormalizeFirstError(clipUrls, from + 1, parseUrl);
        var k :| from + 1 <= k < |clipUrls| && FirstBadClipUrl(clipUrls, from + 1, k, parseUrl, r.message);
        assert FirstBadClipUrl(clipUrls, from, k, parseUrl, r.message);
      }
    }
  }

  /** The part of a path after its last `/`, trailing slashes ignored. */
  function Basename(path: string): string {
    if |path| == 0 then ""
    else if path[|path| - 1] == '/' then Basename(path[..|path| - 1])
    else AfterLastSlash(path)
  }

  function AfterLastSlash(s: string): (r: string)
    ensures '/' !in r
    ensures |r| <= |s| && r == s[|s| - |r|..]
  {
    if |s| == 0 || s[|s| - 1] == '/' then ""
    else AfterLastSlash(s[..|s| - 1]) + [s[|s| - 1]]
  }

  /** Index of the last `.` of `s`, if any. */
  function LastDot(s: string): (r: Option<nat>)
    ensures r.Some? ==> r.value < |s| && s[r.value] == '.' && '.' !in s[r.value + 1..]
    ensures r.None? ==> '.' !in s
  {
    if |s| == 0 then None
    else if s[|s| - 1] == '.' then Some(|s| - 1)
    else
      var r := LastDot(s[..|s| - 1]);
      assert s == s[..|s| - 1] + [s[|s| - 1]];
      r
  }

  /**
   * Node's `path.extname` on POSIX: from the last `.` of the basename to its end; empty
   * when there is no dot, when the dot opens the basename, or for the basename `..`.
   */
  function ExtName(path: string): (r: string)
    ensures r == "" || r[0] == '.'
  {
    var base := Basename(path);
    match LastDot(base)
    case None => ""
    case Some(k) => if k == 0 || base == ".." then "" else base[k..]
  }

  /** `join(dir, name)` for a normalised directory and a plain file name. */
  function JoinPath(dir: string, name: string): string {
    dir + "/" + name
  }

  /** For a non-empty string, `padStart(2, "0")` adds at most one zero. */
  lemma PadTwo(s: string)
    requires |s| >= 1
    ensures PadStart(s, 2, '0') == if |s| >= 2 then s else ['0'] + s
  {
    if |s| < 2 {
      assert seq(2 - |s|, _ => '0') == ['0'];
    }
  }

  /** `String(index + 1).padStart(2, "0")`. */
  function ClipNumber(index: nat): (r: string)
    ensures |r| >= 2
  {
    var s := NatToString(index + 1);
    PadTwo(s);
    PadStart(s, 2, '0')
  }

  /** A clip number is made of digits only. */
  lemma ClipNumberDigit(index: nat, k: nat)
    requires k < |ClipNumber(index)|
    ensures '0' <= ClipNumber(index)[k] <= '9'
  {
    var s := NatToString(index + 1);
    PadTwo(s);
    if |s| < 2 && k >= 1 {
      assert ClipNumber(index)[k] == s[k - 1];
    }
  }

  /** The file name of clip `index`: its number, then the URL path's extension or `.mp4`. */
  function ClipFileName(index: nat, pathname: string): (r: string)
    ensures r == ClipNumber(index) + (if ExtName(pathname) == "" then ".mp4" else ExtName(pathname))
  {
    var ext := ExtName(pathname);
    ClipNumber(index) + (if ext == "" then ".mp4" else ext)
  }

  lemma ClipNumberInjective(i: nat, j: nat)
    requires ClipNumber(i) == ClipNumber(j)
    ensures i == j
  {
    var a := NatToString(i + 1);
    var b := NatToString(j + 1);
    if |a| < 2 && |b| < 2 {
      ShortClipNumbers(i, j);
    } else if |a| >= 2 && |b| >= 2 {
      PadTwo(a);
      PadTwo(b);
      NatToStringInjective(i + 1, j + 1);
    } else if |a| < 2 {
      PaddedNotUnpadded(i, j);
    } else {
      PaddedNotUnpadded(j, i);
    }
  }

  lemma ShortClipNumbers(i: nat, j: nat)
    requires ClipNumber(i) == ClipNumber(j)
    requires |NatToString(i + 1)| < 2 && |NatToString(j + 1)| < 2
    ensures i == j
  {
    var a := NatToString(i + 1);
    var b := NatToString(j + 1);
    var c := ClipNumber(i);
    PadTwo(a);
    PadTwo(b);
    assert a == c[1..] && b == c[1..];
    NatToStringInjective(i + 1, j + 1);
  }

  /** A padded one-digit number starts with `0`; an unpadded one never does. */
  lemma PaddedNotUnpadded(i: nat, j: nat)
    requires |NatToString(i + 1)| < 2 && |NatToString(j + 1)| >= 2
    ensures ClipNumber(i) != ClipNumber(j)
  {
    PadTwo(NatToString(i + 1));
    PadTwo(NatToString(j + 1));
    NatToStringLeadingDigit(j + 1);
  }

  predicate AllDigits(s: string) {
    forall k :: 0 <= k < |s| ==> '0' <= s[k] <= '9'
  }

  /** Index of the first `.` of `s`, or `|s|`. */
  function FirstDot(s: string): nat {
    if |s| == 0 || s[0] == '.' then 0 else 1 + FirstDot(s[1..])
  }

  lemma {:induction false} FirstDotAfterDigits(a: string, x: string)
    requires AllDigits(a) && |x| > 0 && x[0] == '.'
    ensures FirstDot(a + x) == |a|
  {
    if |a| == 0 {
      assert a + x == x;
    } else {
      assert (a + x)[1..] == a[1..] + x;
      FirstDotAfterDigits(a[1..], x);
    }
  }

  /** A digit string followed by a `.`-led suffix can be split only one way. */
  lemma DigitsThenDot(a: string, x: string, b: string, y: string)
    requires AllDigits(a) && AllDigits(b)
    requires |x| > 0 && x[0] == '.' && |y| > 0 && y[0] == '.'
    requires a + x == b + y
    ensures a == b
  {
    FirstDotAfterDigits(a, x);
    FirstDotAfterDigits(b, y);
    assert a == (a + x)[..|a|] && b == (b + y)[..|b|];
  }

  /** Distinct clips get distinct file names, so no download overwrites another. */
  lemma ClipFileNamesDistinct(i: nat, j: nat, p: string, q: string)
    requires i != j
    ensures ClipFileName(i, p) != ClipFileName(j, q)
  {
    var x := if ExtName(p) == "" then ".mp4" else ExtName(p);
    var y := if ExtName(q) == "" then ".mp4" else ExtName(q);
    if ClipFileName(i, p) == ClipFileName(j, q) {
      forall k | 0 <= k < |ClipNumber(i)| ensures '0' <= ClipNumber(i)[k] <= '9' {
        ClipNumberDigit(i, k);
      }
      forall k | 0 <= k < |ClipNumber(j)| ensures '0' <= ClipNumber(j)[k] <= '9' {
        ClipNumberDigit(j, k);
      }
      DigitsThenDot(ClipNumber(i), x, ClipNumber(j), y);
      ClipNumberInjective(i, j);
    }
  }

  /** The encoder invocations: a plain re-encode of one clip, or the crossfade graph over several. */
  datatype EncodeCommand =
    | SingleClip(input: string, output: string)
    | Crossfade(inputs: seq<string>, graph: FilterGraph, output: string)

  /** The observable effects of one stitching call, in order. */
  datatype Effect =
    | MakeTempDir(path: string)
    | Download(url: string, path: string)
    | Probe(path: string)
    | Encode(command: EncodeCommand)
    | ReadOutput(path: string)
    | RemoveTempDir(path: string)

  /**
   * The outside world of one call: the deployment flag, URL parsing, the directory
   * `mkdtemp` creates or its error, the output's UUID, and the outcomes of downloads
   * (by clip index), probes (an error, or the duration field when it is a number), the
   * encoder, reading the output file (an error, or its base64 text), and `rm`.
   */
  datatype StitchEnv = StitchEnv(
    isVercel: bool,
    parseUrl: string -> Result<UrlParts>,
    makeTempError: Option<string>,
    tempDirectory: string,
    outputId: string,
    downloadError: nat -> Option<string>,
    probe: string -> Result<Option<Num>>,
    encodeError: EncodeCommand -> Option<string>,
    readError: Option<string>,
    outputBase64: string,
    removeError: Option<string>)

  datatype StitchVideoResult = StitchVideoResult(videoUrl: string, mimeType: string)

  datatype Outcome<T> = Outcome(result: Result<T>, effects: seq<Effect>)

  /** `probeDurationSeconds`: the duration when it is a finite number above zero. */
  function ProbeDurationSeconds(path: string, probe: string -> Result<Option<Num>>): (r: Result<real>)
    ensures r.Ok? ==> r.value > 0.0
  {
    match probe(path)
    case Err(m) => Err(m)
    case Ok(duration) =>
      if duration.None? || !duration.value.Finite? || duration.value.value <= 0.0 then
        Err("Could not determine duration for " + path)
      else Ok(duration.value.value)
  }

  /** Where each clip is saved: `join(tempDirectory, name)`, in clip order. */
  function ClipPaths(tempDirectory: string, urls: seq<UrlParts>): (paths: seq<string>)
    ensures |paths| == |urls|
  {
    seq(|urls|, i requires 0 <= i < |urls| => JoinPath(tempDirectory, ClipFileName(i, urls[i].pathname)))
  }

  /** The downloads of clips `from..` to their paths, in index order, stopping at the first failure. */
  function DownloadClips(urls: seq<UrlParts>, paths: seq<string>, from: nat, env: StitchEnv): (o: Outcome<seq<string>>)
    requires |paths| == |urls| && from <= |urls|
    ensures o.result.Ok? ==> o.result.value == paths[from..]
    ensures forall e :: e in o.effects ==> e.Download?
    ensures o.result.Ok? ==> |o.effects| == |urls| - from
    ensures o.result.Ok? ==> forall k :: from <= k < |urls| ==> o.effects[k - from] == Download(urls[k].href, paths[k])
    decreases |urls| - from
  {
    if from == |urls| then Outcome(Ok([]), [])
    else
      var here := [Download(urls[from].href, paths[from])];
      match env.downloadError(from)
      case Some(m) => Outcome(Err(m), here)
      case None =>
        var rest := DownloadClips(urls, paths, from + 1, env);
        if rest.result.Err? then Outcome(rest.result, here + rest.effects)
        else Outcome(Ok([paths[from]] + rest.result.value), here + rest.effects)
  }

  /** The probes of `paths[from..]`, in order, stopping at the first failure. */
  function ProbeAll(paths: seq<string>, from: nat, env: StitchEnv): (o: Outcome<seq<real>>)
    requires from <= |paths|
    ensures o.result.Ok? ==> |o.result.value| == |paths| - from
    ensures o.result.Ok? ==> forall k :: 0 <= k < |o.result.value| ==> o.result.value[k] > 0.0
    ensures forall e :: e in o.effects ==> e.Probe?
    ensures o.result.Ok? ==> |o.effects| == |paths| - from
    ensures o.result.Ok? ==> forall k :: from <= k < |paths| ==> o.effects[k - from] == Probe(paths[k])
    ensures o.result.Ok? ==>
      forall k :: from <= k < |paths| ==> ProbeDurationSeconds(paths[k], env.probe) == Ok(o.result.value[k - from])
    decreases |paths| - from
  {
    if from == |paths| then Outcome(Ok([]), [])
    else
      var here := [Probe(paths[from])];
      match ProbeDurationSeconds(paths[from], env.probe)
      case Err(m) => Outcome(Err(m), here)
      case Ok(d) =>
        var rest := ProbeAll(paths, from + 1, env);
        if rest.result.Err? then Outcome(rest.result, here + rest.effects)
        else Outcome(Ok([d] + rest.result.value), here + rest.effects)
  }

  /** `runFfmpeg`: the encoder's error is wrapped. */
  function RunFfmpeg(command: EncodeCommand, env: StitchEnv): (o: Outcome<()>)
    ensures o.effects == [Encode(command)]
  {
    match env.encodeError(command)
    case Some(m) => Outcome(Err("FFmpeg stitching failed: " + m), [Encode(command)])
    case None => Outcome(Ok(()), [Encode(command)])
  }

  /** `stitchSingleClip` for one clip; `stitchWithCrossfades` (probe, choose, build, encode) for several. */
  function EncodeClips(inputPaths: seq<string>, outputPath: string, requested: Option<Num>, env: StitchEnv): (o: Outcome<()>)
    requires |inputPaths| >= 1
    ensures forall e :: e in o.effects ==> e.Probe? || e.Encode?
    ensures |inputPaths| == 1 ==>
      && o.effects == [Encode(SingleClip(inputPaths[0], outputPath))]
      && (o.result.Ok? <==> env.encodeError(SingleClip(inputPaths[0], outputPath)).None?)
    ensures |inputPaths| >= 2 && o.result.Ok? ==>
      var n := |inputPaths|;
      && ProbeAll(inputPaths, 0, env).result.Ok?
      && |o.effects| == n + 1
      && (forall k :: 0 <= k < n ==> o.effects[k] == Probe(inputPaths[k]))
      && o.effects[n].Encode? && o.effects[n].command.Crossfade?
      && o.effects[n].command.inputs == inputPaths && o.effects[n].command.output == outputPath
      && env.encodeError(o.effects[n].command).None?
    ensures |inputPaths| >= 2 && ProbeAll(inputPaths, 0, env).result.Err? ==> o.result.Err?
    ensures |inputPaths| >= 2 && ProbeAll(inputPaths, 0, env).result.Ok? ==>
      var durations := ProbeAll(inputPaths, 0, env).result.value;
      var command := Crossfade(inputPaths,
        CrossfadeGraph(durations, ChooseTransitionDuration(durations, requested)), outputPath);
      && (o.result.Ok? <==> env.encodeError(command).None?)
      && |o.effects| == |inputPaths| + 1 && o.effects[|inputPaths|] == Encode(command)
  {
    if |inputPaths| == 1 then RunFfmpeg(SingleClip(inputPaths[0], outputPath), env)
    else
      var probed := ProbeAll(inputPaths, 0, env);
      if probed.result.Err? then Outcome(Err(probed.result.message), probed.effects)
      else
        var t := ChooseTransitionDuration(probed.result.value, requested);
        var run := RunFfmpeg(Crossfade(inputPaths, CrossfadeGraph(probed.result.value, t), outputPath), env);
        Outcome(run.result, probed.effects + run.effects)
  }

  /** The body of the `try` block of `stitchVideoClips`. */
  function StitchInTempDirectory(urls: seq<UrlParts>, outputPath: string, requested: Option<Num>, env: StitchEnv): (o: Outcome<StitchVideoResult>)
    requires |urls| >= 1
    ensures o.result.Ok? ==>
      var paths := ClipPaths(env.tempDirectory, urls);
      && o.result.value == StitchVideoResult(DataUrlPrefix + env.outputBase64, Mp4)
      && env.readError.None?
      && |o.effects| > |urls| + 1
      && (forall k :: 0 <= k < |urls| ==> o.effects[k] == Download(urls[k].href, paths[k]))
      && o.effects[|o.effects| - 1] == ReadOutput(outputPath)
    ensures o.result.Err? && ReadOutput(outputPath) in o.effects ==>
      env.readError.Some? && o.result.message == env.readError.value
  {
    var downloaded := DownloadClips(urls, ClipPaths(env.tempDirectory, urls), 0, env);
    if downloaded.result.Err? then Outcome(Err(downloaded.result.message), downloaded.effects)
    else
      var encoded := EncodeClips(downloaded.result.value, outputPath, requested, env);
      if encoded.result.Err? then Outcome(Err(encoded.result.message), downloaded.effects + encoded.effects)
      else if env.readError.Some? then
        Outcome(Err(env.readError.value), downloaded.effects + encoded.effects + [ReadOutput(outputPath)])
      else
        Outcome(
          Ok(StitchVideoResult(DataUrlPrefix + env.outputBase64, Mp4)),
          downloaded.effects + encoded.effects + [ReadOutput(outputPath)])
  }

  /** `stitchVideoClips`: guards, temp directory, downloads, encode, read back; the directory is always removed. */
  function StitchVideoClips(clipUrls: seq<string>, requested: Option<Num>, env: StitchEnv): (o: Outcome<StitchVideoResult>)
    ensures o.result.Ok? ==>
      var urls := NormalizeClipUrls(clipUrls, env.parseUrl);
      && !env.isVercel && |clipUrls| > 0 && urls.Ok?
      && env.makeTempError.None? && env.readError.None? && env.removeError.None?
      && |o.effects| > |clipUrls| + 2
      && o.effects[0] == MakeTempDir(env.tempDirectory)
      && o.effects[|o.effects| - 2] == ReadOutput(JoinPath(env.tempDirectory, env.outputId + ".mp4"))
      && o.effects[|o.effects| - 1] == RemoveTempDir(env.tempDirectory)
    ensures env.makeTempError.Some? ==> o.result.Err? && o.effects == []
    ensures env.removeError.Some? && o.effects != [] ==> o.result == Err(env.removeError.value)
  {
    if env.isVercel then Outcome(Err(VercelError), [])
    else if |clipUrls| == 0 then Outcome(Err(NoClipsError), [])
    else
      match NormalizeClipUrls(clipUrls, env.parseUrl)
      case Err(m) => Outcome(Err(m), [])
      case Ok(urls) =>
        if env.makeTempError.Some? then Outcome(Err(env.makeTempError.value), [])
        else
          var outputPath := JoinPath(env.tempDirectory, env.outputId + ".mp4");
          var body := StitchInTempDirectory(urls, outputPath, requested, env);
          var effects := [MakeTempDir(env.tempDirectory)] + body.effects + [RemoveTempDir(env.tempDirectory)];
          if env.removeError.Some? then Outcome(Err(env.removeError.value), effects)
          else Outcome(body.result, effects)
  }

  /** A success downloads every clip, in list order, right after the temp directory is made. */
  lemma StitchDownloadsEveryClip(clipUrls: seq<string>, requested: Option<Num>, env: StitchEnv)
    ensures var o := StitchVideoClips(clipUrls, requested, env);
      var urls := NormalizeClipUrls(clipUrls, env.parseUrl);
      o.result.Ok? ==> forall k :: 0 <= k < |clipUrls| ==>
        o.effects[k + 1] == Download(urls.value[k].href, ClipPaths(env.tempDirectory, urls.value)[k])
  {
    var o := StitchVideoClips(clipUrls, requested, env);
    if o.result.Ok? {
      var urls := NormalizeClipUrls(clipUrls, env.parseUrl).value;
      var outputPath := JoinPath(env.tempDirectory, env.outputId + ".mp4");
      var body := StitchInTempDirectory(urls, outputPath, requested, env);
      assert o.effects == [MakeTempDir(env.tempDirectory)] + body.effects + [RemoveTempDir(env.tempDirectory)];
      Framed(body.effects, MakeTempDir(env.tempDirectory), RemoveTempDir(env.tempDirectory));
    }
  }

  /** Framing a sequence of effects shifts each of them one place right. */
  lemma Framed(effects: seq<Effect>, first: Effect, last: Effect)
    ensures forall k :: 0 <= k < |effects| ==> ([first] + effects + [last])[k + 1] == effects[k]
  {
  }

  /**
   * The guards come first and in this order: Vercel, an empty list, a bad URL; each fails
   * before any effect. Once they pass, the temp directory is created first and removed last.
   */
  lemma StitchGuardsAndCleanup(clipUrls: seq<string>, requested: Option<Num>, env: StitchEnv)
    ensures var o := StitchVideoClips(clipUrls, requested, env);
      && (env.isVercel ==> o == Outcome(Err(VercelError), []))
      && (!env.isVercel && |clipUrls| == 0 ==> o == Outcome(Err(NoClipsError), []))
      && (!env.isVercel && |clipUrls| > 0 && NormalizeClipUrls(clipUrls, env.parseUrl).Err? ==>
            o.result.Err? && o.effects == [])
      && (o.effects != [] ==>
            |o.effects| >= 2 && o.effects[0] == MakeTempDir(env.tempDirectory)
            && o.effects[|o.effects| - 1] == RemoveTempDir(env.tempDirectory))
      && (o.effects == [] ==> o.result.Err?)
  {
  }

  /** A success is always the MP4 data URL of the output file. */
  lemma StitchSuccessIsDataUrl(clipUrls: seq<string>, requested: Option<Num>, env: StitchEnv)
    ensures var o := StitchVideoClips(clipUrls, requested, env);
      o.result.Ok? ==> o.result.value == StitchVideoResult(DataUrlPrefix + env.outputBase64, Mp4)
  {
  }

  /** One clip takes the plain re-encode: nothing is probed and no filter is built. */
  lemma SingleClipSkipsProbes(clipUrl: string, requested: Option<Num>, env: StitchEnv)
    requires !env.isVercel && NormalizeClipUrls([clipUrl], env.parseUrl).Ok? && env.makeTempError.None?
    requires env.downloadError(0).None?
    ensures var o := StitchVideoClips([clipUrl], requested, env);
      var url := NormalizeClipUrls([clipUrl], env.parseUrl).value[0];
      var path := JoinPath(env.tempDirectory, ClipFileName(0, url.pathname));
      && (forall e :: e in o.effects ==> !e.Probe?)
      && Encode(SingleClip(path, JoinPath(env.tempDirectory, env.outputId + ".mp4"))) in o.effects
  {
    var urls := NormalizeClipUrls([clipUrl], env.parseUrl).value;
    var outputPath := JoinPath(env.tempDirectory, env.outputId + ".mp4");
    SingleClipBody(urls, outputPath, requested, env);
  }

  /** With one clip downloaded, the body of the `try` block encodes it alone and probes nothing. */
  lemma SingleClipBody(urls: seq<UrlParts>, outputPath: string, requested: Option<Num>, env: StitchEnv)
    requires |urls| == 1 && env.downloadError(0).None?
    ensures var body := StitchInTempDirectory(urls, outputPath, requested, env);
      var path := JoinPath(env.tempDirectory, ClipFileName(0, urls[0].pathname));
      && (forall e :: e in body.effects ==> !e.Probe?)
      && Encode(SingleClip(path, outputPath)) in body.effects
  {
    var path := ClipPaths(env.tempDirectory, urls)[0];
    SingleClipEffects(urls, path, outputPath, requested, env);
  }

  /** The effects of that body: the download, the encode, and the read-back when the encode succeeds. */
  lemma SingleClipEffects(urls: seq<UrlParts>, path: string, outputPath: string, requested: Option<Num>, env: StitchEnv)
    requires |urls| == 1 && env.downloadError(0).None? && path == ClipPaths(env.tempDirectory, urls)[0]
    ensures var effects := StitchInTempDirectory(urls, outputPath, requested, env).effects;
      var encode := Encode(SingleClip(path, outputPath));
      effects == [Download(urls[0].href, path), encode]
      || effects == [Download(urls[0].href, path), encode, ReadOutput(outputPath)]
  {
    var paths := ClipPaths(env.tempDirectory, urls);
    SingleDownload(urls, paths, env);
    var downloaded := DownloadClips(urls, paths, 0, env);
    assert downloaded.result.value == [path];
    var encoded := EncodeClips([path], outputPath, requested, env);
    var encode := Encode(SingleClip(path, outputPath));
    assert encoded.effects == [encode];
    assert downloaded.effects + encoded.effects == [Download(urls[0].href, path), encode];
  }

  /** One clip whose download succeeds: one download effect, one path. */
  lemma SingleDownload(urls: seq<UrlParts>, paths: seq<string>, env: StitchEnv)
    requires |urls| == 1 && |paths| == 1 && env.downloadError(0).None?
    ensures DownloadClips(urls, paths, 0, env) == Outcome(Ok([paths[0]]), [Download(urls[0].href, paths[0])])
  {
    assert DownloadClips(urls, paths, 1, env) == Outcome(Ok([]), []);
    assert [paths[0]] + [] == [paths[0]];
  }

  /** Several clips are all probed before encoding; a probe without a positive finite duration fails the call. */
  lemma ProbeFailureStopsStitching(paths: seq<string>, outputPath: string, requested: Option<Num>, env: StitchEnv, k: nat)
    requires |paths| >= 2 && k < |paths|
    requires forall j :: 0 <= j < k ==> ProbeDurationSeconds(paths[j], env.probe).Ok?
    requires ProbeDurationSeconds(paths[k], env.probe).Err?
    ensures EncodeClips(paths, outputPath, requested, env).result == Err(ProbeDurationSeconds(paths[k], env.probe).message)
    ensures forall e :: e in EncodeClips(paths, outputPath, requested, env).effects ==> e.Probe?
  {
    ProbeAllStopsAt(paths, 0, env, k);
  }

  lemma {:induction false} ProbeAllStopsAt(paths: seq<string>, from: nat, env: StitchEnv, k: nat)
    requires from <= k < |paths|
    requires forall j :: from <= j < k ==> ProbeDurationSeconds(paths[j], env.probe).Ok?
    requires ProbeDurationSeconds(paths[k], env.probe).Err?
    ensures ProbeAll(paths, from, env).result == Err(ProbeDurationSeconds(paths[k], env.probe).message)
    decreases k - from
  {
    if from < k {
      ProbeAllStopsAt(paths, from + 1, env, k);
    }
  }

  /** The pipeline's data-URL parser accepts every stitched video whose base64 text is not blank. */
  lemma StitchedVideoParses(env: StitchEnv, fallback: string)
    requires !IsBlank(env.outputBase64)
    ensures VideoPipeline.ParseStitchedVideoDataUrl(DataUrlPrefix + env.outputBase64, fallback)
      == Ok(VideoPipeline.ParsedVideo(Mp4, Trim(env.outputBase64)))
  {
    assert VideoPipeline.IsMimeGroup(Mp4);
    assert Trim(Mp4) == Mp4 by {
      TrimOfTrimmed(Mp4);
    }
    VideoPipeline.ParseDataUrlRoundTrip(Mp4, env.outputBase64, fallback);
  }

}
