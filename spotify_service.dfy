/** src/services/SpotifyService.ts without the Web API client: the id
    extractors, the playlist-id check, and the mapping of a response the API
    returned into `Track` records. */
module SpotifyModel {
  import opened Wrappers
  import opened JsText
  import opened Sessions

  // ------------------------------------------------------------ responses

  datatype SpotifyArtist = SpotifyArtist(name: string)
  datatype SpotifyImage = SpotifyImage(url: string)

  /** The fields of a Web API track object that the service reads; `kind`
      is its `type` ("track" or "episode"). */
  datatype SpotifyTrack = SpotifyTrack(
    name: string,
    artists: seq<SpotifyArtist>,
    durationMs: int,
    spotifyUrl: string,
    albumImages: seq<SpotifyImage>,
    id: string,
    kind: string)

  /** A playlist entry; its track may be missing (a removed or local item). */
  datatype PlaylistItem = PlaylistItem(track: Option<SpotifyTrack>)

  const PlaylistMarker := "playlist/"
  const TrackMarker := "track/"
  const TrackKind := "track"
  const PlaylistIdLength := 22
  const InvalidPlaylistId := "Invalid playlist ID format"

  // ------------------------------------------------------------ extraction

  /** `marker` occurs at `i` and is immediately followed by a letter or
      digit, so the regular expression can match there. */
  predicate QualifiesAt(url: string, marker: string, i: nat) {
    i + |marker| < |url| && url[i..i + |marker|] == marker && IsAsciiAlnum(url[i + |marker|])
  }

  /** The leftmost position from `from` on where the expression matches. */
  function FirstQualifying(url: string, marker: string, from: nat): (r: Option<nat>)
    requires from <= |url|
    ensures r.Some? ==> from <= r.value && QualifiesAt(url, marker, r.value)
    ensures r.Some? ==> forall j :: from <= j < r.value ==> !QualifiesAt(url, marker, j)
    ensures r.None? ==> forall j :: from <= j ==> !QualifiesAt(url, marker, j)
    decreases |url| - from
  {
    if from == |url| then None
    else if QualifiesAt(url, marker, from) then Some(from)
    else FirstQualifying(url, marker, from + 1)
  }

  /** Length of the run of letters and digits starting at `from`. */
  function AlnumRun(s: string, from: nat): (n: nat)
    requires from <= |s|
    ensures from + n <= |s|
    ensures forall k :: from <= k < from + n ==> IsAsciiAlnum(s[k])
    ensures from + n < |s| ==> !IsAsciiAlnum(s[from + n])
    decreases |s| - from
  {
    if from < |s| && IsAsciiAlnum(s[from]) then 1 + AlnumRun(s, from + 1) else 0
  }

  /** `url.match(/<marker>([a-zA-Z0-9]+)/)?.[1]`: the greedy group of the
      leftmost match. */
  function ExtractId(url: string, marker: string): (r: Option<string>)
    ensures r.None? <==> forall j :: !QualifiesAt(url, marker, j)
    ensures r.Some? ==> r.value != [] && forall k :: 0 <= k < |r.value| ==> IsAsciiAlnum(r.value[k])
    ensures r.Some? ==> FirstQualifying(url, marker, 0).Some?
    ensures r.Some? && FirstQualifying(url, marker, 0).Some? ==>
      var i := FirstQualifying(url, marker, 0).value;
      var start := i + |marker|;
      QualifiesAt(url, marker, i)
      && (forall j :: 0 <= j < i ==> !QualifiesAt(url, marker, j))
      && start + |r.value| <= |url|
      && r.value == url[start..start + |r.value|]
      && (start + |r.value| < |url| ==> !IsAsciiAlnum(url[start + |r.value|]))
  {
    match FirstQualifying(url, marker, 0)
    case None => None
    case Some(i) =>
      var start := i + |marker|;
      var id := url[start..start + AlnumRun(url, start)];
      GroupAfterMarker(url, marker, i);
      Some(id)
  }

  /** The group read after the leftmost qualifying marker is a non-empty,
      maximal run of letters and digits. */
  lemma GroupAfterMarker(url: string, marker: string, i: nat)
    requires FirstQualifying(url, marker, 0) == Some(i)
    ensures var start := i + |marker|;
            var id := url[start..start + AlnumRun(url, start)];
            QualifiesAt(url, marker, i)
            && (forall j :: 0 <= j < i ==> !QualifiesAt(url, marker, j))
            && id != [] && (forall k :: 0 <= k < |id| ==> IsAsciiAlnum(id[k]))
            && start + |id| <= |url| && id == url[start..start + |id|]
            && (start + |id| < |url| ==> !IsAsciiAlnum(url[start + |id|]))
  {
    var start := i + |marker|;
    var n := AlnumRun(url, start);
    var id := url[start..start + n];
    assert |id| == n && id != [] by {
      assert IsAsciiAlnum(url[start]);
    }
    assert forall k :: 0 <= k < n ==> id[k] == url[start + k];
  }

  /** `extractPlaylistId`: the id after the leftmost "playlist/" that a
      letter or digit follows. */
  function ExtractPlaylistId(url: string): (r: Option<string>)
    ensures r.None? <==> forall j :: !QualifiesAt(url, PlaylistMarker, j)
    ensures r.Some? ==> r.value != [] && forall k :: 0 <= k < |r.value| ==> IsAsciiAlnum(r.value[k])
    ensures r.Some? ==> exists i: nat :: QualifiesAt(url, PlaylistMarker, i)
                                    && i + |PlaylistMarker| + |r.value| <= |url|
                                    && url[i + |PlaylistMarker|..i + |PlaylistMarker| + |r.value|] == r.value
  {
    ExtractId(url, PlaylistMarker)
  }

  /** `extractTrackId`: the id after the leftmost "track/" that a letter or
      digit follows. */
  function ExtractTrackId(url: string): (r: Option<string>)
    ensures r.None? <==> forall j :: !QualifiesAt(url, TrackMarker, j)
    ensures r.Some? ==> r.value != [] && forall k :: 0 <= k < |r.value| ==> IsAsciiAlnum(r.value[k])
    ensures r.Some? ==> exists i: nat :: QualifiesAt(url, TrackMarker, i)
                                    && i + |TrackMarker| + |r.value| <= |url|
                                    && url[i + |TrackMarker|..i + |TrackMarker| + |r.value|] == r.value
  {
    ExtractId(url, TrackMarker)
  }

  /** An id right after the marker at the start, ended by a non-alphanumeric
      character or the end of the text, is extracted whatever its length. */
  lemma ExtractAfterMarker(marker: string, id: string, rest: string)
    requires id != [] && forall k :: 0 <= k < |id| ==> IsAsciiAlnum(id[k])
    requires rest == [] || !IsAsciiAlnum(rest[0])
    ensures ExtractId(marker + id + rest, marker) == Some(id)
  {
    var url := marker + id + rest;
    assert url[..|marker|] == marker && url[|marker|] == id[0];
    assert QualifiesAt(url, marker, 0);
    var r := ExtractId(url, marker).value;
    var start := |marker|;
    forall k | 0 <= k < |id| ensures url[start + k] == id[k] { }
    assert r == url[start..start + |id|];
  }

  /** The two extractors are independent: a track link holds no playlist id. */
  lemma TrackLinkHasNoPlaylistId(id: string)
    requires id != [] && forall k :: 0 <= k < |id| ==> IsAsciiAlnum(id[k])
    ensures ExtractTrackId(TrackMarker + id) == Some(id)
    ensures ExtractPlaylistId(TrackMarker + id) == None
  {
    ExtractAfterMarker(TrackMarker, id, []);
    assert TrackMarker + id + [] == TrackMarker + id;
    var url := TrackMarker + id;
    forall j: nat ensures !QualifiesAt(url, PlaylistMarker, j) {
      if j + |PlaylistMarker| < |url| {
        assert url[j + 8] == id[j + 8 - |TrackMarker|];
        assert url[j + 8] != '/';
        assert url[j..j + |PlaylistMarker|][8] != PlaylistMarker[8];
      }
    }
  }

  // ------------------------------------------------------------ validation

  /** The check `getPlaylistTracks` makes before calling the API: an empty id,
      or one whose JavaScript length (UTF-16 code units) is not 22, is
      refused. */
  function ValidatePlaylistId(id: string): (r: Result<string, string>)
    ensures r.Success? <==> id != [] && Utf16Length(id) == PlaylistIdLength
    ensures r.Success? ==> r.value == id
    ensures r.Failure? ==> r.error == InvalidPlaylistId
  {
    if id == [] || Utf16Length(id) != PlaylistIdLength then Failure(InvalidPlaylistId) else Success(id)
  }

  /** An extracted id passes the check exactly when it has 22 characters;
      the extractor itself accepts any length. */
  lemma ExtractedIdValidation(url: string)
    requires ExtractPlaylistId(url).Some?
    ensures var id := ExtractPlaylistId(url).value;
            ValidatePlaylistId(id).Success? <==> |id| == PlaylistIdLength
  {
    var id := ExtractPlaylistId(url).value;
    forall k | 0 <= k < |id| ensures id[k] as int < 128 {
      assert IsAsciiAlnum(id[k]);
    }
    AsciiUtf16Length(id);
  }

  /** A 23-character id is extracted but then refused. */
  lemma OverlongIdRefused(id: string)
    requires |id| == PlaylistIdLength + 1 && forall k :: 0 <= k < |id| ==> IsAsciiAlnum(id[k])
    ensures ExtractPlaylistId(PlaylistMarker + id) == Some(id)
    ensures ValidatePlaylistId(id) == Failure(InvalidPlaylistId)
  {
    ExtractAfterMarker(PlaylistMarker, id, []);
    assert PlaylistMarker + id + [] == PlaylistMarker + id;
    ExtractedIdValidation(PlaylistMarker + id);
  }

  // ------------------------------------------------------------ mapping

  function ArtistNames(artists: seq<SpotifyArtist>): (names: seq<string>)
    ensures |names| == |artists|
    ensures forall k :: 0 <= k < |artists| ==> names[k] == artists[k].name
  {
    if artists == [] then [] else [artists[0].name] + ArtistNames(artists[1..])
  }

  /** The `Track` record built from a Web API track: artist names joined by
      ", ", the first album image as thumbnail when there is one. */
  function ToTrack(t: SpotifyTrack, requestedBy: string): (r: Track)
    ensures r.title == t.name && r.duration == t.durationMs && r.url == t.spotifyUrl
    ensures r.thumbnail.Some? <==> |t.albumImages| > 0
    ensures r.thumbnail.Some? ==> r.thumbnail.value == t.albumImages[0].url
    ensures r.spotifyId == Some(t.id) && r.requestedBy == requestedBy
    ensures |t.artists| == 0 ==> r.artist == []
    ensures |t.artists| == 1 ==> r.artist == t.artists[0].name
  {
    Track(
      t.name,
      Join(ArtistNames(t.artists), ", "),
      t.durationMs,
      t.spotifyUrl,
      if |t.albumImages| > 0 then Some(t.albumImages[0].url) else None,
      Some(t.id),
      requestedBy)
  }

  /** The artist text starts with the first artist's name and ends with the
      last one's, with ", " after every name but the last. */
  lemma {:induction false} ArtistText(t: SpotifyTrack, more: SpotifyArtist, requestedBy: string)
    requires t.artists != []
    ensures var names := ArtistNames(t.artists);
            StartsWith(ToTrack(t, requestedBy).artist, names[0])
            && EndsWith(ToTrack(t, requestedBy).artist, names[|names| - 1])
    ensures ToTrack(t.(artists := t.artists + [more]), requestedBy).artist
            == ToTrack(t, requestedBy).artist + ", " + more.name
  {
    var names := ArtistNames(t.artists);
    JoinStartsWithFirst(names, ", ");
    JoinEndsWithLast(names, ", ");
    var longer := ArtistNames(t.artists + [more]);
    assert longer == names + [more.name];
    JoinSnoc(names, more.name, ", ");
  }

  /** An item `getPlaylistTracks` keeps: it has a track of type "track". */
  predicate Kept(item: PlaylistItem) {
    item.track.Some? && item.track.value.kind == TrackKind
  }

  /** The playlist's tracks as `Track` records, in item order. */
  function PlaylistTracks(items: seq<PlaylistItem>, requestedBy: string): (r: seq<Track>)
    ensures |r| <= |items|
    decreases |items|
  {
    if items == [] then []
    else
      var last := items[|items| - 1];
      PlaylistTracks(items[..|items| - 1], requestedBy)
      + (if Kept(last) then [ToTrack(last.track.value, requestedBy)] else [])
  }

  /** Skipped items contribute nothing; kept ones contribute one record. */
  lemma {:induction false} PlaylistTracksAppend(xs: seq<PlaylistItem>, ys: seq<PlaylistItem>, requestedBy: string)
    ensures PlaylistTracks(xs + ys, requestedBy) == PlaylistTracks(xs, requestedBy) + PlaylistTracks(ys, requestedBy)
    decreases |ys|
  {
    if ys == [] {
      assert xs + ys == xs;
    } else {
      var init := ys[..|ys| - 1];
      assert (xs + ys)[..|xs + ys| - 1] == xs + init;
      PlaylistTracksAppend(xs, init, requestedBy);
    }
  }

  /** When every item is kept the output has one record per item, each
      built from the item at the same position. */
  lemma {:induction false} AllKeptInOrder(items: seq<PlaylistItem>, requestedBy: string)
    requires forall k :: 0 <= k < |items| ==> Kept(items[k])
    ensures |PlaylistTracks(items, requestedBy)| == |items|
    ensures forall k :: 0 <= k < |items| ==>
              (items[k].track.Some?
               && PlaylistTracks(items, requestedBy)[k] == ToTrack(items[k].track.value, requestedBy))
    decreases |items|
  {
    if items != [] {
      AllKeptInOrder(items[..|items| - 1], requestedBy);
    }
  }

  /** Items without a "track" contribute nothing. */
  lemma {:induction false} NoneKeptIsEmpty(items: seq<PlaylistItem>, requestedBy: string)
    requires forall k :: 0 <= k < |items| ==> !Kept(items[k])
    ensures PlaylistTracks(items, requestedBy) == []
    decreases |items|
  {
    if items != [] {
      NoneKeptIsEmpty(items[..|items| - 1], requestedBy);
    }
  }

  /** `getPlaylistTracks` given the outcome of the API call: the id check
      comes first, an API error is passed on, and otherwise the kept items
      are pushed one by one. */
  method GetPlaylistTracks(playlistId: string, requestedBy: string, response: Result<seq<PlaylistItem>, string>)
    returns (r: Result<seq<Track>, string>)
    ensures ValidatePlaylistId(playlistId).Failure? ==> r == Failure(InvalidPlaylistId)
    ensures ValidatePlaylistId(playlistId).Success? && response.Failure? ==> r == Failure(response.error)
    ensures ValidatePlaylistId(playlistId).Success? && response.Success? ==>
              r == Success(PlaylistTracks(response.value, requestedBy))
  {
    if playlistId == [] || Utf16Length(playlistId) != PlaylistIdLength {
      return Failure(InvalidPlaylistId);
    }
    if response.Failure? {
      return Failure(response.error);
    }
    var items := response.value;
    var tracks: seq<Track> := [];
    for i := 0 to |items|
      invariant tracks == PlaylistTracks(items[..i], requestedBy)
    {
      assert items[..i + 1][..i] == items[..i];
      var item := items[i];
      if item.track.Some? && item.track.value.kind == TrackKind {
        tracks := tracks + [ToTrack(item.track.value, requestedBy)];
      }
    }
    assert items[..|items|] == items;
    return Success(tracks);
  }

  /** `searchTrack` given the API outcome: the first result as a `Track`, or
      nothing when the call failed, no track list came back or it is empty. */
  function SearchTrack(response: Result<Option<seq<SpotifyTrack>>, string>, requestedBy: string): (r: Option<Track>)
    ensures r.None? <==> response.Failure? || response.value.None? || response.value.value == []
    ensures r.Some? ==> r.value == ToTrack(response.value.value[0], requestedBy)
  {
    if response.Failure? || response.value.None? || response.value.value == [] then None
    else Some(ToTrack(response.value.value[0], requestedBy))
  }

  /** `getTrackById` given the API outcome: nothing exactly when it failed. */
  function GetTrackById(response: Result<SpotifyTrack, string>, requestedBy: string): (r: Option<Track>)
    ensures r.None? <==> response.Failure?
    ensures r.Some? ==> r.value == ToTrack(response.value, requestedBy)
  {
    if response.Failure? then None else Some(ToTrack(response.value, requestedBy))
  }
}
