/** The text `QueueCommand.execute` (src/commands/QueueCommand.ts) builds
    from a guild's session: an empty-queue reply, or an embed with a
    now-playing field and an up-next field. */
module QueueView {
  import opened Wrappers
  import opened JsText
  import opened Sessions

  /** One embed field. */
  datatype Field = Field(name: string, value: string)

  datatype QueueReply =
    | EmptyQueue(text: string)
    | QueueEmbed(nowPlaying: Option<Field>, upNext: Option<Field>)

  const EmptyQueueText := "\U{274C} Queue kosong! Gunakan `!play` untuk menambahkan musik."
  const NowPlayingTitle := "\U{1F3B6} Sedang Diputar"
  const UpNextStart := "\U{1F4DD} Selanjutnya ("
  const UpNextEnd := " lagu)"
  const MoreSuffix := "\n*...dan lainnya*"
  const ShownTracks := 10
  const MsPerMinute := 60000

  /** `Math.floor(duration / 1000 / 60)` on an integral duration. */
  function WholeMinutes(ms: int): (m: int)
    ensures m * MsPerMinute <= ms < (m + 1) * MsPerMinute
  {
    ms / MsPerMinute
  }

  /** The line for the track at zero-based position `index`. */
  function TrackLine(index: nat, t: Track): string {
    Concat(["**", NatToString(index + 1), ".** ", t.title, " - *", t.artist,
            "* (", IntToString(WholeMinutes(t.duration)), "m)"])
  }

  /** A line opens with the one-based position in bold, shows the title and
      the artist, and closes with the whole minutes of the duration and
      "m)". */
  lemma TrackLineShape(index: nat, t: Track)
    ensures StartsWith(TrackLine(index, t), "**")
    ensures var digits := NatToString(index + 1);
            OccursAt(TrackLine(index, t), digits, 2) && DecimalValue(digits) == index + 1
    ensures EndsWith(TrackLine(index, t), IntToString(WholeMinutes(t.duration)) + "m)")
    ensures Contains(TrackLine(index, t), t.title) && Contains(TrackLine(index, t), t.artist)
  {
    var parts := ["**", NatToString(index + 1), ".** ", t.title, " - *", t.artist,
                  "* (", IntToString(WholeMinutes(t.duration)), "m)"];
    DecimalRoundTrip(index + 1);
    ConcatShowsPiece(parts, 0);
    ConcatShowsPiece(parts, 1);
    assert parts[..1] == ["**"] && Concat(["**"]) == "**" + Concat([]);
    ConcatShowsPiece(parts, 3);
    ConcatShowsPiece(parts, 5);
    TrackLineEndsWithMinutes(index, t);
  }

  lemma TrackLineEndsWithMinutes(index: nat, t: Track)
    ensures EndsWith(TrackLine(index, t), IntToString(WholeMinutes(t.duration)) + "m)")
  {
    var minutes := IntToString(WholeMinutes(t.duration));
    var front := ["**", NatToString(index + 1), ".** ", t.title, " - *", t.artist, "* ("];
    ConcatAppend(front, [minutes, "m)"]);
    assert front + [minutes, "m)"] == ["**", NatToString(index + 1), ".** ", t.title, " - *", t.artist,
                                        "* (", minutes, "m)"];
    assert [minutes, "m)"][1..] == ["m)"] && ["m)"][1..] == [];
    assert Concat([minutes, "m)"]) == minutes + "m)";
    ThreeParts([], Concat(front), minutes + "m)");
    assert [] + Concat(front) + (minutes + "m)") == TrackLine(index, t);
  }

  /** `tracks.slice(0, 10).map((track, index) => ...)`: the first ten
      queued tracks, numbered 1, 2, ... in queue order. */
  function UpcomingLines(tracks: seq<Track>): (lines: seq<string>)
    ensures |lines| == if |tracks| < ShownTracks then |tracks| else ShownTracks
    ensures forall k :: 0 <= k < |lines| ==> lines[k] == TrackLine(k, tracks[k])
  {
    var n := if |tracks| < ShownTracks then |tracks| else ShownTracks;
    seq(n, k requires 0 <= k < n => TrackLine(k, tracks[k]))
  }

  function NowPlayingField(t: Track): Field {
    Field(NowPlayingTitle,
          Concat(["**", t.title, "**\n*oleh ", t.artist, "*\n*Diminta oleh: ", t.requestedBy, "*"]))
  }

  /** The now-playing field shows the title, the artist and who asked. */
  lemma NowPlayingShowsTrack(t: Track)
    ensures var v := NowPlayingField(t).value;
            Contains(v, t.title) && Contains(v, t.artist) && Contains(v, t.requestedBy)
  {
    var parts := ["**", t.title, "**\n*oleh ", t.artist, "*\n*Diminta oleh: ", t.requestedBy, "*"];
    ConcatShowsPiece(parts, 1);
    ConcatShowsPiece(parts, 3);
    ConcatShowsPiece(parts, 5);
  }

  function UpNextHeader(count: nat): string {
    UpNextStart + NatToString(count) + UpNextEnd
  }

  function UpNextField(tracks: seq<Track>): Field {
    Field(UpNextHeader(|tracks|),
          Join(UpcomingLines(tracks), "\n") + (if |tracks| > ShownTracks then MoreSuffix else ""))
  }

  /** The reply for a session. */
  function Reply(q: Queue): (r: QueueReply)
    ensures r.EmptyQueue? <==> q.currentTrack.None? && q.tracks == []
    ensures r.EmptyQueue? ==> r.text == EmptyQueueText
    ensures r.QueueEmbed? ==> (r.nowPlaying.Some? <==> q.currentTrack.Some?)
    ensures r.QueueEmbed? ==> (r.upNext.Some? <==> q.tracks != [])
    ensures r.QueueEmbed? && r.nowPlaying.Some? ==> r.nowPlaying.value == NowPlayingField(q.currentTrack.value)
    ensures r.QueueEmbed? && r.upNext.Some? ==> r.upNext.value == UpNextField(q.tracks)
  {
    if q.currentTrack.None? && q.tracks == [] then EmptyQueue(EmptyQueueText)
    else
      QueueEmbed(
        if q.currentTrack.Some? then Some(NowPlayingField(q.currentTrack.value)) else None,
        if q.tracks != [] then Some(UpNextField(q.tracks)) else None)
  }

  /** "...dan lainnya" closes the up-next text exactly when more than ten
      tracks are queued. */
  lemma MoreSuffixIffOverflow(tracks: seq<Track>)
    requires tracks != []
    ensures EndsWith(UpNextField(tracks).value, MoreSuffix) <==> |tracks| > ShownTracks
  {
    if |tracks| <= ShownTracks {
      var lines := UpcomingLines(tracks);
      var last := lines[|lines| - 1];
      JoinEndsWithLast(lines, "\n");
      TrackLineShape(|lines| - 1, tracks[|lines| - 1]);
      var v := Join(lines, "\n");
      assert v == UpNextField(tracks).value;
      assert v[|v| - 1] == last[|last| - 1] == ')';
      assert MoreSuffix[|MoreSuffix| - 1] == '*';
    }
  }

  /** The header reflects the whole queue: the digits in it denote its
      length, so queues of different lengths get different headers even
      beyond the ten tracks shown. */
  lemma {:induction false} HeaderCountsAllTracks(a: seq<Track>, b: seq<Track>)
    ensures var h := UpNextHeader(|a|);
            var digits := h[|UpNextStart|..|h| - |UpNextEnd|];
            StartsWith(h, UpNextStart) && EndsWith(h, UpNextEnd)
            && AllDigits(digits) && DecimalValue(digits) == |a|
    ensures |a| != |b| ==> UpNextHeader(|a|) != UpNextHeader(|b|)
  {
    var h := UpNextHeader(|a|);
    assert h[|UpNextStart|..|h| - |UpNextEnd|] == NatToString(|a|);
    assert h[..|UpNextStart|] == UpNextStart;
    assert h[|h| - |UpNextEnd|..] == UpNextEnd;
    DecimalRoundTrip(|a|);
    DecimalRoundTrip(|b|);
    var g := UpNextHeader(|b|);
    assert g[|UpNextStart|..|g| - |UpNextEnd|] == NatToString(|b|);
  }

  /** A session holding only queued tracks shows no now-playing field; one
      playing its last track shows no up-next field. */
  lemma ReplyFields(t: Track, ts: seq<Track>)
    requires ts != []
    ensures Reply(Queue(ts, None, false, DefaultVolume)).nowPlaying.None?
    ensures Reply(Queue([], Some(t), true, DefaultVolume)).upNext.None?
    ensures Reply(NewQueue()) == EmptyQueue(EmptyQueueText)
  {
  }
}
