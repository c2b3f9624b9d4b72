/** The video source picker: a two-field state (selected video, active source)
    whose selection handler reports the chosen URL to the caller and to
    analytics, and the helper that rewrites IPFS references to a gateway URL. */
module VideoSelector {
  import opened Common

  const GatewayPrefix: string := "https://gateway.pinata.cloud/ipfs/"
  const Separator: string := "://"
  const ZeroAddress: string := "0x0000000000000000000000000000000000000000"

  /** The separator `://` occurs in `s` at index `j`. */
  predicate SeparatorAt(s: string, j: int) {
    0 <= j && j + |Separator| <= |s| && s[j..j + |Separator|] == Separator
  }

  /** `s` holds no `://` at all. */
  predicate NoSeparator(s: string) {
    forall j | 0 <= j < |s| :: !SeparatorAt(s, j)
  }

  /** The first occurrence of `://` in `s` at or after `from`, as JavaScript's
      `split` finds it. */
  function IndexOfSeparator(s: string, from: nat): (r: Option<nat>)
    decreases |s| - from
    ensures r.Some? ==> from <= r.value && SeparatorAt(s, r.value)
    ensures r.Some? ==> forall j :: from <= j < r.value ==> !SeparatorAt(s, j)
    ensures r.None? ==> forall j :: from <= j ==> !SeparatorAt(s, j)
  {
    if from + |Separator| > |s| then None
    else if s[from..from + |Separator|] == Separator then Some(from)
    else IndexOfSeparator(s, from + 1)
  }

  /** A string without a colon holds no separator. */
  lemma NoColonNoSeparator(s: string)
    requires forall j | 0 <= j < |s| :: s[j] != ':'
    ensures NoSeparator(s)
  {
    forall j | 0 <= j < |s| ensures !SeparatorAt(s, j) {
      if j + |Separator| <= |s| {
        assert s[j..j + |Separator|][0] == s[j];
      }
    }
  }

  /** A slice `s[lo..hi]` inherits the absence of separators in `s` between `lo` and `hi`. */
  lemma SliceNoSeparator(s: string, lo: nat, hi: nat)
    requires lo <= hi <= |s|
    requires forall j :: lo <= j && j + |Separator| <= hi ==> !SeparatorAt(s, j)
    ensures NoSeparator(s[lo..hi])
  {
    var piece := s[lo..hi];
    forall k | 0 <= k < |piece| ensures !SeparatorAt(piece, k) {
      if k + |Separator| <= |piece| {
        assert |Separator| == 3;
        assert piece[k..k + 3] == s[lo + k..lo + k + 3] by {
          assert piece[k] == s[lo + k] && piece[k + 1] == s[lo + k + 1] && piece[k + 2] == s[lo + k + 2];
        }
        assert !SeparatorAt(s, lo + k);
      }
    }
  }

  /** `t` is a piece of `s` starting at `from`: it holds no separator and ends
      at the end of `s` or where a separator starts. */
  predicate PieceAt(s: string, from: nat, t: string) {
    NoSeparator(t) && from + |t| <= |s| && s[from..from + |t|] == t
    && (from + |t| == |s| || SeparatorAt(s, from + |t|))
  }

  /** The text from `from` up to the next separator, or to the end when there is none. */
  function PieceFrom(s: string, from: nat): (t: string)
    requires from <= |s|
    ensures PieceAt(s, from, t)
  {
    match IndexOfSeparator(s, from)
    case None =>
      SliceNoSeparator(s, from, |s|);
      assert s[from..] == s[from..|s|];
      s[from..]
    case Some(j) =>
      SliceNoSeparator(s, from, j);
      s[from..j]
  }

  /** `s.split("://")[1]`: the text between the first and the second separator
      (or to the end), `None` (JavaScript `undefined`) when there is no separator.
      The piece starts right after the first separator, holds none itself, and
      ends at the end of `s` or where the next separator starts. */
  function SecondPiece(s: string): (r: Option<string>)
    ensures r.None? <==> NoSeparator(s)
    ensures r.Some? ==> NoSeparator(r.value)
    ensures r.Some? ==> IndexOfSeparator(s, 0).Some?
    ensures r.Some? ==> PieceAt(s, IndexOfSeparator(s, 0).value + |Separator|, r.value)
  {
    match IndexOfSeparator(s, 0)
    case None => None
    case Some(i) => Some(PieceFrom(s, i + |Separator|))
  }

  /** A separator-free piece of `s` starting at `start` and ending at the end of
      `s` or at a separator leaves no separator starting before its end. */
  lemma NoSeparatorInPiece(s: string, start: nat, t: string)
    requires PieceAt(s, start, t)
    ensures forall p :: start <= p < start + |t| ==> !SeparatorAt(s, p)
  {
    var stop := start + |t|;
    forall p | start <= p < stop ensures !SeparatorAt(s, p) {
      if p + |Separator| <= stop {
        var q := p - start;
        assert t[q] == s[p] && t[q + 1] == s[p + 1] && t[q + 2] == s[p + 2];
        assert s[p..p + 3] == [s[p], s[p + 1], s[p + 2]];
        assert t[q..q + 3] == [t[q], t[q + 1], t[q + 2]];
        assert !SeparatorAt(t, q);
      } else if p + |Separator| <= |s| {
        assert s[p..p + 3][stop - p] == s[stop];
        assert s[stop..stop + 3][0] == s[stop];
      }
    }
  }

  /** Such a piece ends exactly where the search for the next separator stops. */
  lemma PieceEndsAtNextSeparator(s: string, start: nat, t: string)
    requires PieceAt(s, start, t)
    ensures IndexOfSeparator(s, start) == if start + |t| == |s| then None else Some(start + |t|)
  {
    NoSeparatorInPiece(s, start, t);
  }

  /** `PieceFrom` is the only piece of `s` starting at `from`. */
  lemma PieceFromDetermined(s: string, from: nat, t: string)
    requires PieceAt(s, from, t)
    ensures PieceFrom(s, from) == t
  {
    var r := PieceFrom(s, from);
    PieceEndsAtNextSeparator(s, from, t);
    PieceEndsAtNextSeparator(s, from, r);
    assert |r| == |t|;
  }

  /** The contract of `SecondPiece` pins the piece down: any separator-free text
      that starts right after the first separator and ends at the end of `s` or
      at a separator is exactly `s.split("://")[1]`. */
  lemma SecondPieceDetermined(s: string, i: nat, t: string)
    requires IndexOfSeparator(s, 0) == Some(i)
    requires PieceAt(s, i + |Separator|, t)
    ensures SecondPiece(s) == Some(t)
  {
    PieceFromDetermined(s, i + |Separator|, t);
  }

  /** How JavaScript interpolates `s.split("://")[1]` into a template string. */
  function PieceText(p: Option<string>): string {
    match p
    case None => "undefined"
    case Some(t) => t
  }

  /** `formatIpfsUrl`. */
  function FormatIpfsUrl(url: Option<string>): (r: string)
    ensures !Truthy(url) ==> r == ""
    ensures Truthy(url) && !StartsWith(url.value, "ipfs") ==> r == url.value
    ensures Truthy(url) && StartsWith(url.value, "ipfs") ==>
              StartsWith(r, GatewayPrefix) && NoSeparator(r[|GatewayPrefix|..])
    ensures Truthy(url) && StartsWith(url.value, "ipfs") ==>
              r == GatewayPrefix + PieceText(SecondPiece(url.value))
  {
    if !Truthy(url) then ""
    else if StartsWith(url.value, "ipfs") then
      var piece := PieceText(SecondPiece(url.value));
      NoColonNoSeparator("undefined");
      assert (GatewayPrefix + piece)[|GatewayPrefix|..] == piece;
      GatewayPrefix + piece
    else url.value
  }

  /** `ipfs://<cid>` with a cid free of `://` maps to the gateway URL of that cid. */
  lemma IpfsReferenceToGateway(cid: string)
    requires NoSeparator(cid)
    ensures FormatIpfsUrl(Some("ipfs://" + cid)) == GatewayPrefix + cid
  {
    IpfsSegment(cid, "");
    assert "ipfs://" + cid + "" == "ipfs://" + cid;
  }

  /** No separator starts inside `ipfs://<cid>` after the scheme's own, when
      the cid has none and the rest is empty or starts with a separator. */
  lemma NoSeparatorInCid(cid: string, tail: string, j: nat)
    requires NoSeparator(cid)
    requires tail == "" || StartsWith(tail, Separator)
    requires 7 <= j < 7 + |cid|
    ensures !SeparatorAt("ipfs://" + cid + tail, j)
  {
    var s := "ipfs://" + cid + tail;
    var n := 7 + |cid|;
    if j + |Separator| <= |s| {
      if j + 3 <= n {
        assert s[j..j + 3] == cid[j - 7..j - 4];
        assert !SeparatorAt(cid, j - 7);
      } else if j == n - 1 {
        assert s[j..j + 3][1] == tail[0] == ':';
      } else {
        assert s[j..j + 3][2] == tail[0] == ':';
      }
    }
  }

  /** Only the segment between the first and second `://` is kept:
      `ipfs://<cid>://<rest>` maps to the gateway URL of `<cid>`. */
  lemma IpfsSegment(cid: string, tail: string)
    requires NoSeparator(cid)
    requires tail == "" || StartsWith(tail, Separator)
    ensures FormatIpfsUrl(Some("ipfs://" + cid + tail)) == GatewayPrefix + cid
  {
    var s := "ipfs://" + cid + tail;
    var n := 7 + |cid|;
    assert StartsWith(s, "ipfs") by { assert s[..4] == "ipfs"; }
    assert SeparatorAt(s, 4) by { assert s[4..7] == "://"; }
    forall j | 0 <= j < 4 ensures !SeparatorAt(s, j) {
      assert s[j..j + 3][0] == s[j] == "ipfs"[j];
    }
    assert IndexOfSeparator(s, 0) == Some(4);
    forall j | 7 <= j < n ensures !SeparatorAt(s, j) {
      NoSeparatorInCid(cid, tail, j);
    }
    if tail == "" {
      assert IndexOfSeparator(s, 7).None?;
      assert s[7..] == cid;
    } else {
      assert SeparatorAt(s, n) by { assert s[n..n + 3] == tail[..3]; }
      assert IndexOfSeparator(s, 7) == Some(n);
      assert s[7..n] == cid;
    }
  }

  /** An `ipfs…` reference with no `://` at all yields the gateway prefix
      followed by the text `undefined`. */
  lemma IpfsWithoutSeparator(url: string)
    requires StartsWith(url, "ipfs") && NoSeparator(url)
    ensures FormatIpfsUrl(Some(url)) == GatewayPrefix + "undefined"
  {
  }

  datatype VideoSource = YouTube | Wallet

  /** The value the wallet picker is rendered with. */
  datatype NftSelectorValue = NftSelectorValue(chain: string, imageUrl: string, selectedImage: nat, walletAddress: string)

  const WalletPickerValue: NftSelectorValue := NftSelectorValue("base", "", 0, ZeroAddress)

  /** The sub-picker rendered below the source menu. */
  datatype Picker = YouTubePicker | WalletPicker(value: NftSelectorValue)

  /** The picker component's state, with the calls it has made to the
      caller's `onVideoSelect` and to analytics recorded in order. */
  class Selector {
    var selectedVideo: Option<string>
    var videoSource: VideoSource
    var reported: seq<string>
    var tracked: seq<AnalyticsEvent>

    /** Every callback call was matched by a MUSIC_UPDATED event for the same URL,
        and the selection shown is the last URL reported. */
    ghost predicate Valid()
      reads this
    {
      && |reported| == |tracked|
      && (forall i :: 0 <= i < |tracked| ==> tracked[i] == MusicUpdated(reported[i]))
      && (reported != [] ==> selectedVideo == Some(reported[|reported| - 1]))
    }

    constructor (initialVideoUrl: Option<string>)
      ensures Valid()
      ensures selectedVideo == initialVideoUrl && videoSource == YouTube
      ensures reported == [] && tracked == []
    {
      selectedVideo := initialVideoUrl;
      videoSource := YouTube;
      reported := [];
      tracked := [];
    }

    /** `handleVideoSelect`. */
    method HandleVideoSelect(videoUrl: string)
      requires Valid()
      modifies this
      ensures Valid()
      ensures selectedVideo == Some(videoUrl) && videoSource == old(videoSource)
      ensures reported == old(reported) + [videoUrl]
      ensures tracked == old(tracked) + [MusicUpdated(videoUrl)]
    {
      selectedVideo := Some(videoUrl);
      reported := reported + [videoUrl];
      tracked := tracked + [MusicUpdated(videoUrl)];
    }

    /** `handleNftSelect`: forwards the NFT's image URL. */
    method HandleNftSelect(value: NftSelectorValue)
      requires Valid()
      modifies this
      ensures Valid()
      ensures selectedVideo == Some(value.imageUrl) && videoSource == old(videoSource)
      ensures reported == old(reported) + [value.imageUrl]
      ensures tracked == old(tracked) + [MusicUpdated(value.imageUrl)]
    {
      HandleVideoSelect(value.imageUrl);
    }

    /** The source menu's `onValueChange`. */
    method SetVideoSource(source: VideoSource)
      requires Valid()
      modifies this
      ensures Valid()
      ensures videoSource == source
      ensures selectedVideo == old(selectedVideo)
      ensures reported == old(reported) && tracked == old(tracked)
    {
      videoSource := source;
    }

    /** The sub-pickers rendered: one guarded element per source. */
    function Pickers(): (r: seq<Picker>)
      reads this
      ensures |r| == 1
      ensures r[0].YouTubePicker? <==> videoSource == YouTube
      ensures r[0].WalletPicker? ==> r[0].value == WalletPickerValue
    {
      (if videoSource == YouTube then [YouTubePicker] else [])
        + (if videoSource == Wallet then [WalletPicker(WalletPickerValue)] else [])
    }

    /** The preview frame's source, when the preview is rendered. */
    function Preview(): (r: Option<string>)
      reads this
      ensures r.Some? <==> Truthy(selectedVideo)
      ensures r.Some? ==> r == selectedVideo
    {
      if Truthy(selectedVideo) then selectedVideo else None
    }
  }

  /** Choosing a source and then a video: the callback receives exactly that
      URL, analytics records it, and the preview shows it when it is non-empty. */
  method SelectFromSource(s: Selector, source: VideoSource, videoUrl: string)
    requires s.Valid()
    modifies s
    ensures s.Valid()
    ensures s.videoSource == source
    ensures s.reported == old(s.reported) + [videoUrl]
    ensures s.tracked[|s.tracked| - 1] == MusicUpdated(videoUrl)
    ensures s.Preview() == if videoUrl == "" then None else Some(videoUrl)
  {
    s.SetVideoSource(source);
    s.HandleVideoSelect(videoUrl);
  }
}
