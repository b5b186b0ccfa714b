/** The app shell: it owns the current track index and renders one player
    for the current track, passing its file id and the configured key. */
module AppComponent {
  import opened Values
  import opened Session
  import opened Sequencer
  import opened AudioPlayerComponent

  class App {
    var currentTrackIndex: int
    const apiKey: string
    const player: AudioPlayer

    /** The index names a playlist entry and the player is showing it. */
    ghost predicate Valid()
      reads this, player
    {
      && 0 <= currentTrackIndex < |Playlist|
      && player.Valid()
      && player.fileId == Playlist[currentTrackIndex].id
      && player.apiKey == Some(apiKey)
    }

    /** `PLAYLIST[currentTrackIndex]`: always an entry of the playlist. */
    function CurrentTrack(): (t: Track)
      reads this
      requires 0 <= currentTrackIndex < |Playlist|
      ensures t in Playlist && t == Playlist[currentTrackIndex]
    {
      Playlist[currentTrackIndex]
    }

    /** First render: the first track, and its player mounted. */
    constructor (apiKey: string)
      ensures Valid() && fresh(player)
      ensures currentTrackIndex == 0 && this.apiKey == apiKey
      ensures player.State() == Mount(Playlist[0].id, Some(apiKey))
    {
      currentTrackIndex := 0;
      this.apiKey := apiKey;
      player := new AudioPlayer(Playlist[0].id, Some(apiKey));
    }

    /** `handleNextTrack`, and the re-render that hands the new file to
        the player. */
    method HandleNextTrack()
      requires Valid()
      modifies this, player
      ensures Valid()
      ensures currentTrackIndex == Next(old(currentTrackIndex), |Playlist|)
      ensures player.State() == OnTrackChange(old(player.State()), CurrentTrack().id, Some(apiKey))
    {
      currentTrackIndex := Next(currentTrackIndex, |Playlist|);
      player.ChangeTrack(Playlist[currentTrackIndex].id, Some(apiKey));
    }

    /** `handlePrevTrack`, and the re-render that follows. */
    method HandlePrevTrack()
      requires Valid()
      modifies this, player
      ensures Valid()
      ensures currentTrackIndex == Prev(old(currentTrackIndex), |Playlist|)
      ensures player.State() == OnTrackChange(old(player.State()), CurrentTrack().id, Some(apiKey))
    {
      currentTrackIndex := Prev(currentTrackIndex, |Playlist|);
      player.ChangeTrack(Playlist[currentTrackIndex].id, Some(apiKey));
    }

    /** The player reports `ended`: it stops, the app advances, and the
        next track starts loading from its first candidate. */
    method TrackEnded()
      requires Valid()
      modifies this, player
      ensures Valid()
      ensures currentTrackIndex == Next(old(currentTrackIndex), |Playlist|)
      ensures player.State()
                == Reset(OnEnded(old(player.State())), CurrentTrack().id, Some(apiKey))
      ensures player.currentUrlIndex == 0 && player.isLoading && player.error == None
    {
      player.HandleEnded();
      HandleNextTrack();
    }
  }
}
