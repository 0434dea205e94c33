/** The VideoIn node: it owns the decode device, remembers the requested
    stream and whether it is enabled, tells its sink through a change
    ticket when either changes, and starts playback sessions on request. */
module VideoSource {
  import opened Direct3D
  import opened Acquisitions

  /** The C# `int` the change ticket is stored in. */
  newtype int32 = x: int | -0x8000_0000 <= x < 0x8000_0000

  const Int32Max: int32 := 0x7fff_ffff
  const Int32Min: int32 := -0x8000_0000

  /** `changeTicket++` in C#'s default unchecked context: the successor
      modulo 2^32, so int.MaxValue is followed by int.MinValue. */
  function Inc32(x: int32): (r: int32)
    ensures (r as int - (x as int + 1)) % 0x1_0000_0000 == 0
    ensures r != x
  {
    if x == Int32Max then Int32Min else x + 1
  }

  class VideoIn {
    const device: Device
    const deviceContext: DeviceContext
    /** The requested stream; absent until the first Update. */
    var url: Option<string>
    var changeTicket: int32
    var enabled: bool
    var isDisposed: bool
    /** The most recently started session, forgotten when the request changes. */
    var acquisition: Acquisition?

    /** A live session was started for the current request, on this node's
        device. */
    ghost predicate Valid()
      reads this, device
    {
      device.Valid() &&
      (acquisition != null ==>
         acquisition.device == device && acquisition.deviceContext == deviceContext &&
         url == Some(acquisition.url) && enabled)
    }

    /** Creates the hardware device with video support and its immediate
        context; the node holds the one reference to each. */
    constructor ()
      ensures Valid() && fresh(device) && fresh(deviceContext)
      ensures device.refCount == 1 && deviceContext.refCount == 1
      ensures device.released == multiset{} && device.owner == map[]
      ensures url == None && changeTicket == 0 && !enabled && !isDisposed && acquisition == null
    {
      device := new Device();
      deviceContext := new DeviceContext();
      url := None;
      changeTicket := 0;
      enabled := false;
      isDisposed := false;
      acquisition := null;
    }

    /** Records the requested stream. A disposed node answers null and
        changes nothing. Otherwise a different url or enabled flag drops the
        session and moves the ticket on; the same request changes nothing.
        The node itself is the answer. */
    method Update(newUrl: string, newEnabled: bool) returns (source: VideoIn?)
      requires Valid()
      modifies this`url, this`enabled, this`acquisition, this`changeTicket
      ensures Valid()
      ensures source == null <==> isDisposed
      ensures source != null ==> source == this
      ensures isDisposed ==> unchanged(this)
      ensures !isDisposed ==> url == Some(newUrl) && enabled == newEnabled
      ensures !isDisposed && (old(url) != Some(newUrl) || old(enabled) != newEnabled) ==>
        acquisition == null && changeTicket == Inc32(old(changeTicket))
      ensures !isDisposed && old(url) == Some(newUrl) && old(enabled) == newEnabled ==>
        acquisition == old(acquisition) && changeTicket == old(changeTicket)
    {
      if isDisposed {
        return null;
      }
      if url != Some(newUrl) || enabled != newEnabled {
        url := Some(newUrl);
        enabled := newEnabled;
        acquisition := null;
        changeTicket := Inc32(changeTicket);
      }
      source := this;
    }

    /** The sink's reading of the ticket. */
    function ChangedTicket(): int32
      reads this
    {
      changeTicket
    }

    /** Starts a new session for the current request, unless there is no
        url yet, the node is disposed or the request is disabled. The new
        session replaces the remembered one; the previous session is left
        to the sink that started it. */
    method Start(ctx: PlaybackContext) returns (player: Acquisition?)
      requires Valid()
      modifies this`acquisition
      ensures Valid()
      ensures player == null <==> url == None || isDisposed || !enabled
      ensures player == null ==> acquisition == old(acquisition)
      ensures player != null ==>
        fresh(player) && acquisition == player && player.Valid() &&
        player.url == url.value && player.ctx == ctx &&
        player.device == device && player.deviceContext == deviceContext &&
        player.frames == [] && !player.addingCompleted &&
        player.texturePool == null && player.currentRenderTarget == null
    {
      if url == None || isDisposed || !enabled {
        return null;
      }
      player := new Acquisition(ctx, url.value, device, deviceContext);
      acquisition := player;
    }

    /** The first call marks the node disposed, moves the ticket on so
        that the sink re-subscribes and gives back both device references;
        later calls do nothing. */
    method Dispose()
      requires Valid()
      modifies this`isDisposed, this`changeTicket, device`refCount, deviceContext`refCount
      ensures Valid() && isDisposed
      ensures old(isDisposed) ==> changeTicket == old(changeTicket) && unchanged(device, deviceContext)
      ensures !old(isDisposed) ==>
        changeTicket == Inc32(old(changeTicket)) &&
        device.refCount == old(device.refCount) - 1 &&
        deviceContext.refCount == old(deviceContext.refCount) - 1
    {
      if isDisposed {
        return;
      }
      isDisposed := true;
      changeTicket := Inc32(changeTicket);
      deviceContext.Release();
      device.Release();
    }

    /** Whether the session's player is playing; false without a session. */
    function IsPlaying(): (playing: bool)
      reads this, acquisition
      ensures acquisition == null ==> !playing
      ensures acquisition != null ==> (playing <==> acquisition.player.isPlaying)
    {
      acquisition != null && acquisition.player.isPlaying
    }

    /** The player's state; Stopped without a session. */
    function State(): (state: VlcState)
      reads this, acquisition
      ensures acquisition == null ==> state == Stopped
      ensures acquisition != null ==> state == acquisition.player.state
    {
      if acquisition == null then Stopped else acquisition.player.state
    }

    /** The stream time in seconds (the player reports milliseconds);
        zero without a session. */
    function Time(): (seconds: real)
      reads this, acquisition
      ensures acquisition == null ==> seconds == 0.0
      ensures acquisition != null ==> seconds * 1000.0 == acquisition.player.timeMs as real
    {
      if acquisition == null then 0.0 else acquisition.player.timeMs as real / 1000.0
    }

    /** The playback position as the player reports it; zero without a
        session. */
    function Position(): (position: real)
      reads this, acquisition
      ensures acquisition == null ==> position == 0.0
      ensures acquisition != null ==> position == acquisition.player.position
    {
      if acquisition == null then 0.0 else acquisition.player.position
    }

    /** The stream length in seconds (the player reports milliseconds);
        zero without a session. */
    function Length(): (seconds: real)
      reads this, acquisition
      ensures acquisition == null ==> seconds == 0.0
      ensures acquisition != null ==> seconds * 1000.0 == acquisition.player.lengthMs as real
    {
      if acquisition == null then 0.0 else acquisition.player.lengthMs as real / 1000.0
    }
  }
}
