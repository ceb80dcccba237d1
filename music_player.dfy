/** The compact music player: the playlist it falls back to, the song it
    starts on, its play / select / playlist toggles and the `m:ss` duration
    shown beside each playlist entry. */
module MusicPlayer {
  import opened Text
  import GlassMusicPlayer

  datatype Song = Song(id: string, name: string, artist: string, album: string,
                       duration: int, url: string, cover: Option<string>)

  /** The one-song playlist used when none, or an empty one, is given. */
  const DefaultSong := Song("2728105200", "Starmine", "网易云音乐", "默认专辑", 240, "#",
                            Some("/images/default-album.jpg"))
  const DefaultPlaylist: seq<Song> := [DefaultSong]
  /** The `autoPlaySongId` prop's default. */
  const DefaultAutoPlaySongId := "2728105200"
  /** Links to this site open in a new tab instead of playing in place. */
  const NeteaseHost := "music.163.com"

  /** `finalPlaylist`: the given list when it has songs, the default one otherwise. */
  function FinalPlaylist(playlist: seq<Song>): (r: seq<Song>)
    ensures |r| >= 1
    ensures playlist != [] ==> r == playlist
    ensures playlist == [] ==> r == DefaultPlaylist
  {
    if |playlist| > 0 then playlist else DefaultPlaylist
  }

  /** Falling back twice is falling back once. */
  lemma FinalPlaylistIdempotent(playlist: seq<Song>)
    ensures FinalPlaylist(FinalPlaylist(playlist)) == FinalPlaylist(playlist)
  {
  }

  /** `songs.find(song => song.id === id)` from index `from`: the index of the first song with that id. */
  function FindById(songs: seq<Song>, id: string, from: nat): (r: Option<nat>)
    decreases |songs| - from
    ensures r.Some? ==> from <= r.value < |songs| && songs[r.value].id == id
    ensures r.Some? ==> forall k :: from <= k < r.value ==> songs[k].id != id
    ensures r.None? ==> forall k :: from <= k < |songs| ==> songs[k].id != id
  {
    if from >= |songs| then None
    else if songs[from].id == id then Some(from)
    else FindById(songs, id, from + 1)
  }

  /** The song the mount effect selects: the first one with the requested id,
      else the first song; `None` only for an empty list. */
  function InitialSong(songs: seq<Song>, id: string): Option<Song>
  {
    var found := FindById(songs, id, 0);
    if found.Some? then Some(songs[found.value])
    else if |songs| > 0 then Some(songs[0])
    else None
  }

  /** What the initial song is, stated without the search: the first song
      carrying the id when there is one, the head of the list otherwise. */
  lemma {:induction false} InitialSongChoice(songs: seq<Song>, id: string)
    requires songs != []
    ensures InitialSong(songs, id).Some?
    ensures InitialSong(songs, id).value in songs
    ensures (exists k :: 0 <= k < |songs| && songs[k].id == id) ==>
      exists k :: 0 <= k < |songs| && songs[k].id == id && InitialSong(songs, id) == Some(songs[k])
        && forall j :: 0 <= j < k ==> songs[j].id != id
    ensures (forall k :: 0 <= k < |songs| ==> songs[k].id != id) ==> InitialSong(songs, id) == Some(songs[0])
  {
    var found := FindById(songs, id, 0);
    if found.Some? {
      assert songs[found.value] in songs;
    }
  }

  /** With the default playlist and the default id the player starts on the default song. */
  lemma DefaultStart()
    ensures InitialSong(FinalPlaylist([]), DefaultAutoPlaySongId) == Some(DefaultSong)
  {
    assert FinalPlaylist([])[0].id == DefaultAutoPlaySongId;
  }

  /** `s.padStart(width, c)`. */
  function PadStart(s: string, width: nat, c: char): (r: string)
    ensures |s| >= width ==> r == s
    ensures |s| < width ==> |r| == width && r[width - |s|..] == s
    ensures forall k :: 0 <= k < |r| - |s| ==> r[k] == c
    decreases width - |s|
  {
    if |s| >= width then s else PadStart([c] + s, width, c)
  }

  /** The duration beside a playlist entry: `Math.floor(d / 60)`, a colon, then
      `d % 60` padded to two characters with `0`. */
  function FormatDuration(d: int): string
  {
    IntToString(d / 60) + ":" + PadStart(IntToString(JsRem(d, 60)), 2, '0')
  }

  /** For non-negative durations the playlist shows the same text as the glass
      player's time display, so it reads back as minutes and seconds too. */
  lemma FormatDurationMatchesFormatTime(d: int)
    requires d >= 0
    ensures FormatDuration(d) == GlassMusicPlayer.FormatTime(d)
    ensures var s := FormatDuration(d);
      && |s| >= 4 && s[|s| - 3] == ':'
      && AllDigits(s[..|s| - 3]) && AllDigits(s[|s| - 2..])
      && ParseDigits(s[..|s| - 3]) * 60 + ParseDigits(s[|s| - 2..]) == d
  {
    calc {
      FormatDuration(d);
      IntToString(d / 60) + ":" + PadStart(IntToString(JsRem(d, 60)), 2, '0');
      NatToString(d / 60) + ":" + PadStart(NatToString(d % 60), 2, '0');
      { PadStartTwoDigits(d % 60); }
      NatToString(d / 60) + ":" + Pad2(d % 60);
      { GlassMusicPlayer.FormatTimeShape(d); }
      GlassMusicPlayer.FormatTime(d);
    }
    GlassMusicPlayer.FormatTimeRoundTrip(d);
  }

  /** Padding the rendering of a number below one hundred to two places gives its two digits. */
  lemma PadStartTwoDigits(n: nat)
    requires n < 100
    ensures PadStart(NatToString(n), 2, '0') == Pad2(n)
  {
    NatToStringSmall(n);
    if n < 10 {
      assert PadStart(NatToString(n), 2, '0') == "0" + NatToString(n);
    }
  }

  class Player {
    /** The effective playlist and the requested song, fixed by the props. */
    const songs: seq<Song>
    const autoPlaySongId: string

    var isPlaying: bool
    var currentSong: Option<Song>
    var showPlaylist: bool
    var isLoading: bool

    /** The playlist is never empty, the current song is one of its songs, and
        the spinner only shows before a song has been chosen. */
    ghost predicate Valid()
      reads this
    {
      && |songs| >= 1
      && (currentSong.Some? ==> currentSong.value in songs)
      && (!isLoading ==> currentSong.Some?)
    }

    /** Mounting with the given props; an absent prop takes its default. */
    constructor (autoPlaySongId: Option<string>, playlist: Option<seq<Song>>)
      ensures Valid()
      ensures this.autoPlaySongId == (if autoPlaySongId.Some? then autoPlaySongId.value else DefaultAutoPlaySongId)
      ensures songs == FinalPlaylist(if playlist.Some? then playlist.value else DefaultPlaylist)
      ensures !isPlaying && currentSong.None? && !showPlaylist && isLoading
    {
      this.autoPlaySongId := if autoPlaySongId.Some? then autoPlaySongId.value else DefaultAutoPlaySongId;
      songs := FinalPlaylist(if playlist.Some? then playlist.value else DefaultPlaylist);
      isPlaying, currentSong, showPlaylist, isLoading := false, None, false, true;
    }

    /** The mount effect: choose the starting song and stop loading. Since the
        effective playlist is never empty, loading always ends here. */
    method SelectAutoPlaySong()
      requires Valid()
      modifies this
      ensures Valid()
      ensures currentSong == InitialSong(songs, autoPlaySongId) && !isLoading
      ensures isPlaying == old(isPlaying) && showPlaylist == old(showPlaylist)
    {
      InitialSongChoice(songs, autoPlaySongId);
      var found := FindById(songs, autoPlaySongId, 0);
      if found.Some? {
        currentSong := Some(songs[found.value]);
        isLoading := false;
      } else if |songs| > 0 {
        currentSong := Some(songs[0]);
        isLoading := false;
      }
    }

    /** `togglePlay`, with `hasAudio` telling whether the audio element is
        mounted. Returns the link opened in a new tab, if any: a paused
        `music.163.com` song is opened there and stays paused. */
    method TogglePlay(hasAudio: bool) returns (newTab: Option<string>)
      requires Valid()
      modifies this
      ensures Valid()
      ensures !hasAudio || currentSong.None? ==> isPlaying == old(isPlaying) && newTab.None?
      ensures hasAudio && currentSong.Some? && old(isPlaying) ==> !isPlaying && newTab.None?
      ensures hasAudio && currentSong.Some? && !old(isPlaying) ==>
        if Contains(currentSong.value.url, NeteaseHost, false) then
          !isPlaying && newTab == Some(currentSong.value.url)
        else
          isPlaying && newTab.None?
      ensures currentSong == old(currentSong) && showPlaylist == old(showPlaylist) && isLoading == old(isLoading)
    {
      newTab := None;
      if hasAudio && currentSong.Some? {
        if isPlaying {
          isPlaying := false;
        } else {
          if Contains(currentSong.value.url, NeteaseHost, false) {
            newTab := Some(currentSong.value.url);
            return;
          }
          isPlaying := true;
        }
      }
    }

    /** `selectSong` for the playlist entry at index `k`: make it current,
        stop, and close the playlist. */
    method SelectSong(k: nat)
      requires Valid() && k < |songs|
      modifies this
      ensures Valid()
      ensures currentSong == Some(songs[k]) && !isPlaying && !showPlaylist
      ensures isLoading == old(isLoading)
    {
      currentSong := Some(songs[k]);
      isPlaying := false;
      showPlaylist := false;
    }

    /** `togglePlaylist`: open or close the playlist. */
    method TogglePlaylist()
      requires Valid()
      modifies this
      ensures Valid()
      ensures showPlaylist == !old(showPlaylist)
      ensures isPlaying == old(isPlaying) && currentSong == old(currentSong) && isLoading == old(isLoading)
    {
      showPlaylist := !showPlaylist;
    }

    /** The playlist's close button. */
    method ClosePlaylist()
      requires Valid()
      modifies this
      ensures Valid()
      ensures !showPlaylist
      ensures isPlaying == old(isPlaying) && currentSong == old(currentSong) && isLoading == old(isLoading)
    {
      showPlaylist := false;
    }

    /** The audio element's `play`, `pause` and `ended` events. */
    method AudioEvent(playing: bool)
      requires Valid()
      modifies this
      ensures Valid()
      ensures isPlaying == playing
      ensures currentSong == old(currentSong) && showPlaylist == old(showPlaylist) && isLoading == old(isLoading)
    {
      isPlaying := playing;
    }
  }

  /** Pressing play twice on a song served in place returns to the paused state. */
  method PlayPause(p: Player)
    requires p.Valid() && p.currentSong.Some? && !p.isPlaying
    requires !Contains(p.currentSong.value.url, NeteaseHost, false)
    modifies p
    ensures p.Valid() && !p.isPlaying
    ensures p.currentSong == old(p.currentSong) && p.showPlaylist == old(p.showPlaylist)
  {
    var newTab := p.TogglePlay(true);
    assert p.isPlaying;
    newTab := p.TogglePlay(true);
  }
}
