/** One playback session (VideoIn's nested Acquisition class): the decode
    callbacks that move a texture from the pool into the pending slot and
    from there into the bounded frame queue or back to its pool, and the
    consumer-side pop of that queue. The decoder calls the callbacks one at
    a time; the locks and the atomic exchange become plain assignments. */
module Acquisitions {
  import opened Direct3D
  import opened PoolPolicy
  import opened Pooling
  import opened VideoFormats

  datatype Option<T> = None | Some(value: T)

  /** The bounded capacity of the frame queue. */
  const FrameCapacity: nat := 2

  /** The foreign player's state enumeration. */
  datatype VlcState = Stopped | Opening | Buffering | Playing | Paused | Ended | Error

  /** What the foreign media player reports; it updates these values on
      its own thread, so the model only ever reads them. */
  datatype PlayerStatus = PlayerStatus(isPlaying: bool, state: VlcState, timeMs: int, position: real, lengthMs: int)

  const NotStarted: PlayerStatus := PlayerStatus(false, Stopped, 0, 0.0, 0)

  /** The consumer's playback context: only the colour-space choice matters
      to the core. */
  datatype PlaybackContext = PlaybackContext(usesLinearColorspace: bool)

  /** The size the decoder asks for in UpdateOuput. */
  datatype RenderConfig = RenderConfig(width: nat, height: nat)

  /** What Swap did with the pending texture. `AddingCompletedThrown` is
      the InvalidOperationException that TryAdd raises once the queue has
      been closed by Dispose; the exception leaves Swap. */
  datatype SwapOutcome = NothingPending | Queued | Recycled | AddingCompletedThrown

  /** The frame handed to the consumer. `sharedFrom` is the decode-device
      texture that the consumer-device texture aliases. */
  datatype VideoTexture = VideoTexture(sharedFrom: Handle, width: nat, height: nat, format: PixelFormat)

  /** A grabbed frame and the pooled texture its release callback recycles. */
  datatype GrabbedFrame = GrabbedFrame(frame: VideoTexture, source: PooledTexture)

  class Acquisition {
    const ctx: PlaybackContext
    const url: string
    const device: Device
    const deviceContext: DeviceContext
    /** The BlockingCollection, oldest first. */
    var frames: seq<PooledTexture>
    /** Set by CompleteAdding. */
    var addingCompleted: bool
    var texturePool: TexturePool?
    /** The texture rented by StartRendering and not yet taken by Swap. */
    var currentRenderTarget: PooledTexture?
    var player: PlayerStatus
    /** Every pool this session has created. */
    ghost var pools: set<TexturePool>
    /** The textures of grabbed frames the consumer has not released yet. */
    ghost var handedOut: set<PooledTexture>

    /** `t` belongs to one of this session's pools and can still be
        returned to it. */
    ghost predicate InFlight(t: PooledTexture)
      reads this`pools, device, pools
    {
      t.pool in pools && t.pool.device == device && t.pool.Outstanding(t)
    }

    /** A pool that has been replaced or cleaned up: disposed and empty. */
    ghost predicate Retired(p: TexturePool)
      reads p
    {
      p.isDisposed && p.free == []
    }

    /** A retired pool of a valid device is itself valid. */
    lemma RetiredValid(p: TexturePool)
      requires p.device.Valid() && Retired(p)
      ensures p.Valid()
    {
    }

    /** The session invariant: every pool but the current one is disposed,
        every pool produces BGRA textures, the queue holds at most two
        distinct in-flight textures, the pending texture is in flight and
        not queued, and the textures of grabbed frames are in flight and
        neither queued nor pending. */
    ghost predicate Valid()
      reads this, device, pools
    {
      device.Valid() &&
      (forall p | p in pools ::
         p.device == device && (p != texturePool ==> Retired(p)) &&
         ToPixelFormat(p.description.format) == Converted(B8G8R8A8)) &&
      (texturePool != null ==> texturePool in pools && texturePool.Valid() && !texturePool.isDisposed) &&
      |frames| <= FrameCapacity &&
      (forall i | 0 <= i < |frames| :: InFlight(frames[i])) &&
      (forall i, j | 0 <= i < j < |frames| :: frames[i] != frames[j]) &&
      (currentRenderTarget != null ==> InFlight(currentRenderTarget) && currentRenderTarget !in frames) &&
      (forall t | t in handedOut :: InFlight(t) && t !in frames && t != currentRenderTarget)
    }

    /** Creating the libvlc instance and the media player, registering the
        callbacks and starting playback are foreign calls; what remains is
        an empty, open session without a pool. */
    constructor (ctx: PlaybackContext, url: string, device: Device, deviceContext: DeviceContext)
      requires device.Valid()
      ensures Valid()
      ensures this.ctx == ctx && this.url == url
      ensures this.device == device && this.deviceContext == deviceContext
      ensures frames == [] && !addingCompleted && texturePool == null && currentRenderTarget == null
      ensures pools == {} && handedOut == {} && player == NotStarted
    {
      this.ctx := ctx;
      this.url := url;
      this.device := device;
      this.deviceContext := deviceContext;
      frames := [];
      addingCompleted := false;
      texturePool := null;
      currentRenderTarget := null;
      player := NotStarted;
      pools := {};
      handedOut := {};
    }

    /** Closes the frame queue (CompleteAdding). Queued textures stay
        queued and the current pool is not disposed here. */
    method Dispose()
      requires Valid()
      modifies this`addingCompleted
      ensures Valid() && addingCompleted
    {
      addingCompleted := true;
    }

    /** Pops the oldest queued texture; an empty queue (a timeout, or a
        closed and drained queue) gives no frame. The frame's layout comes
        from the texture's description and the conversion cannot fail,
        because every pool of the session has a BGRA format. */
    method GrabVideoFrame() returns (r: Option<GrabbedFrame>)
      requires Valid()
      modifies this`frames, this`handedOut
      ensures Valid()
      ensures r.None? <==> old(frames) == []
      ensures r.None? ==> frames == old(frames) && handedOut == old(handedOut)
      ensures r.Some? ==>
        var t := old(frames)[0];
        r.value.source == t && frames == old(frames)[1..] && handedOut == old(handedOut) + {t} &&
        r.value.frame == VideoTexture(t.texture, t.Description().width, t.Description().height, B8G8R8A8) &&
        t.pool.Valid() && t.pool.Outstanding(t)
    {
      if frames == [] {
        return None;
      }
      var t := frames[0];
      frames := frames[1..];
      handedOut := handedOut + {t};
      var desc := t.Description();
      var layout := ToPixelFormat(desc.format);
      r := Some(GrabbedFrame(VideoTexture(t.texture, desc.width, desc.height, layout.layout), t));
    }

    /** The release callback of a grabbed frame: its texture goes back to
        its own pool, the current one or a retired one, while the session
        carries on. */
    method ReleaseFrame(t: PooledTexture)
      requires Valid() && t in handedOut
      modifies this`handedOut, pools`free, device`released
      ensures Valid() && handedOut == old(handedOut) - {t}
      ensures t.pool.ReturnEffect(t)
      ensures forall p | p in pools && p != t.pool :: p.free == old(p.free)
    {
      handedOut := handedOut - {t};
      ReturnToPool(t);
    }

    /** Returns a texture that the session no longer holds anywhere (not
        queued, not pending, not handed out) to its own pool, the current
        one or a retired one; the rest of the session is unaffected. */
    method ReturnToPool(t: PooledTexture)
      requires Valid() && InFlight(t) && t !in frames && t != currentRenderTarget && t !in handedOut
      modifies pools`free, device`released
      ensures Valid() && t.pool.ReturnEffect(t)
      ensures forall p | p in pools && p != t.pool :: p.free == old(p.free)
    {
      if t.pool == texturePool {
        ReturnToCurrentPool(t);
      } else {
        ReturnToRetiredPool(t);
      }
    }

    /** ReturnToPool when `t` comes from the current pool, which may keep it. */
    method ReturnToCurrentPool(t: PooledTexture)
      requires Valid() && InFlight(t) && t !in frames && t != currentRenderTarget && t !in handedOut && t.pool == texturePool
      modifies pools`free, device`released
      ensures Valid() && t.pool.ReturnEffect(t)
      ensures forall p | p in pools && p != t.pool :: p.free == old(p.free)
    {
      t.Recycle();
      forall i | 0 <= i < |frames|
        ensures InFlight(frames[i])
      {
        assert frames[i] != t;
      }
      forall u | u in handedOut
        ensures InFlight(u)
      {
        assert u != t;
      }
      if currentRenderTarget != null {
        assert InFlight(currentRenderTarget);
      }
    }

    /** ReturnToPool when `t` comes from a retired pool, which releases it. */
    method ReturnToRetiredPool(t: PooledTexture)
      requires Valid() && InFlight(t) && t !in frames && t != currentRenderTarget && t !in handedOut && t.pool != texturePool
      modifies pools`free, device`released
      ensures Valid() && t.pool.ReturnEffect(t)
      ensures forall p | p in pools && p != t.pool :: p.free == old(p.free)
    {
      RetiredValid(t.pool);
      t.Recycle();
      forall i | 0 <= i < |frames|
        ensures InFlight(frames[i])
      {
        assert frames[i] != t;
      }
      forall u | u in handedOut
        ensures InFlight(u)
      {
        assert u != t;
      }
      if currentRenderTarget != null {
        assert InFlight(currentRenderTarget);
      }
      if texturePool != null {
        forall i | 0 <= i < |texturePool.free|
          ensures texturePool.free[i].Held()
        {
          assert texturePool.free[i] != t;
        }
      }
    }

    /** Hands the device context to the decoder and takes a reference for it. */
    method OutputSetup() returns (ok: bool, context: DeviceContext)
      requires Valid()
      modifies deviceContext`refCount
      ensures Valid() && ok && context == deviceContext
      ensures deviceContext.refCount == old(deviceContext.refCount) + 1
    {
      context := deviceContext;
      deviceContext.AddRef();
      ok := true;
    }

    /** Disposes the current pool, forgets it and gives back the decoder's
        reference on the device context. */
    method OutputCleanup()
      requires Valid()
      modifies this`texturePool, pools`free, pools`isDisposed
      modifies device`released, device`refCount, deviceContext`refCount
      ensures Valid() && texturePool == null
      ensures deviceContext.refCount == old(deviceContext.refCount) - 1
      ensures old(texturePool) != null ==>
        old(texturePool).isDisposed && old(texturePool).free == [] &&
        device.released == old(device.released) + Handles(old(texturePool.free)) &&
        device.refCount == old(device.refCount) - 1
      ensures old(texturePool) == null ==>
        device.released == old(device.released) && device.refCount == old(device.refCount)
    {
      RetirePool();
      deviceContext.Release();
    }

    /** Disposes the current pool, if any, and forgets it; the part shared
        by OutputCleanup and UpdateOuput. */
    method RetirePool()
      requires Valid()
      modifies this`texturePool, pools`free, pools`isDisposed, device`released, device`refCount
      ensures Valid() && texturePool == null
      ensures old(texturePool) != null ==>
        old(texturePool).isDisposed && old(texturePool).free == [] &&
        device.released == old(device.released) + Handles(old(texturePool.free)) &&
        device.refCount == old(device.refCount) - 1
      ensures old(texturePool) == null ==> unchanged(device)
    {
      if texturePool != null {
        texturePool.Dispose();
        forall i | 0 <= i < |frames|
          ensures InFlight(frames[i])
        {
          assert old(InFlight(frames[i]));
        }
        forall u | u in handedOut
          ensures InFlight(u)
        {
          assert old(InFlight(u));
        }
      }
      texturePool := null;
    }

    /** (Re)negotiation: disposes any previous pool, installs a new one sized
        by the decoder in the colour-space-dependent format, and reports
        BGRA UNORM with the matching transfer function. */
    method UpdateOuput(config: RenderConfig) returns (ok: bool, output: OutputConfig)
      requires Valid()
      modifies this`texturePool, this`pools, pools`free, pools`isDisposed
      modifies device`released, device`refCount
      ensures Valid() && ok
      ensures output == NegotiatedOutput(ctx.usesLinearColorspace)
      ensures texturePool != null && fresh(texturePool) && pools == old(pools) + {texturePool}
      ensures texturePool.description == PoolDescription(config.width, config.height, ctx.usesLinearColorspace)
      ensures texturePool.free == [] && !texturePool.isDisposed
      ensures old(texturePool) != null ==>
        old(texturePool).isDisposed && old(texturePool).free == [] &&
        device.released == old(device.released) + Handles(old(texturePool.free)) &&
        device.refCount == old(device.refCount)
      ensures old(texturePool) == null ==>
        device.released == old(device.released) && device.refCount == old(device.refCount) + 1
    {
      RetirePool();
      var desc := PoolDescription(config.width, config.height, ctx.usesLinearColorspace);
      texturePool := new TexturePool(device, desc);
      pools := pools + {texturePool};
      forall i | 0 <= i < |frames|
        ensures InFlight(frames[i])
      {
      }
      forall u | u in handedOut
        ensures InFlight(u)
      {
      }
      output := NegotiatedOutput(ctx.usesLinearColorspace);
      ok := true;
    }

    /** Takes the pending texture out of its slot. If there was one, it is
        queued when the queue has room and handed back to its pool when the
        queue is full; a closed queue makes TryAdd throw, and then the texture
        is neither queued nor returned. */
    method Swap() returns (outcome: SwapOutcome)
      requires Valid()
      modifies this`currentRenderTarget, this`frames, pools`free, device`released
      ensures Valid() && currentRenderTarget == null
      ensures old(currentRenderTarget) == null ==>
        outcome == NothingPending && frames == old(frames) && unchanged(device)
      ensures old(currentRenderTarget) != null && addingCompleted ==>
        outcome == AddingCompletedThrown && frames == old(frames) && unchanged(device) &&
        // the texture is now out of every slot but still holds its handles
        var t := old(currentRenderTarget); t !in frames && t.pool.Outstanding(t)
      ensures old(currentRenderTarget) != null && !addingCompleted && |old(frames)| < FrameCapacity ==>
        outcome == Queued && frames == old(frames) + [old(currentRenderTarget)] && unchanged(device)
      ensures old(currentRenderTarget) != null && !addingCompleted && |old(frames)| >= FrameCapacity ==>
        outcome == Recycled && frames == old(frames) && old(currentRenderTarget).pool.ReturnEffect(old(currentRenderTarget))
      ensures forall p | p in pools && (outcome != Recycled || p != old(currentRenderTarget).pool) :: p.free == old(p.free)
    {
      var texture := currentRenderTarget;
      if texture == null {
        return NothingPending;
      }
      if addingCompleted {
        currentRenderTarget := null;
        return AddingCompletedThrown;
      }
      if |frames| < FrameCapacity {
        EnqueuePending();
        return Queued;
      }
      RecyclePending();
      outcome := Recycled;
    }

    /** Swap as evidently intended: a texture that cannot be queued because
        the queue has been closed goes back to its pool like one that does
        not fit, so every pending texture is either queued or returned. */
    method SwapRecyclingWhenClosed() returns (outcome: SwapOutcome)
      requires Valid()
      modifies this`currentRenderTarget, this`frames, pools`free, device`released
      ensures Valid() && currentRenderTarget == null && outcome != AddingCompletedThrown
      ensures old(currentRenderTarget) == null ==>
        outcome == NothingPending && frames == old(frames) && unchanged(device)
      ensures old(currentRenderTarget) != null && !addingCompleted && |old(frames)| < FrameCapacity ==>
        outcome == Queued && frames == old(frames) + [old(currentRenderTarget)] && unchanged(device)
      ensures old(currentRenderTarget) != null && (addingCompleted || |old(frames)| >= FrameCapacity) ==>
        outcome == Recycled && frames == old(frames) && old(currentRenderTarget).pool.ReturnEffect(old(currentRenderTarget))
      ensures forall p | p in pools && (outcome != Recycled || p != old(currentRenderTarget).pool) :: p.free == old(p.free)
    {
      if currentRenderTarget == null {
        return NothingPending;
      }
      if !addingCompleted && |frames| < FrameCapacity {
        EnqueuePending();
        return Queued;
      }
      RecyclePending();
      outcome := Recycled;
    }

    /** Swap's successful TryAdd: the pending texture joins the back of the
        open queue, which has room for it. */
    method EnqueuePending()
      requires Valid() && currentRenderTarget != null && !addingCompleted && |frames| < FrameCapacity
      modifies this`currentRenderTarget, this`frames
      ensures Valid() && currentRenderTarget == null
      ensures frames == old(frames) + [old(currentRenderTarget)]
    {
      frames := frames + [currentRenderTarget];
      currentRenderTarget := null;
    }

    /** Swap's full-queue branch: the pending texture goes back to its own
        pool, which is the current pool or a retired one. */
    method RecyclePending()
      requires Valid() && currentRenderTarget != null
      modifies this`currentRenderTarget, pools`free, device`released
      ensures Valid() && currentRenderTarget == null
      ensures old(currentRenderTarget).pool.ReturnEffect(old(currentRenderTarget))
      ensures forall p | p in pools && p != old(currentRenderTarget).pool :: p.free == old(p.free)
    {
      var texture := currentRenderTarget;
      currentRenderTarget := null;
      ReturnToPool(texture);
    }

    /** On entering a frame, rents a texture from the current pool into the
        pending slot (the slot is overwritten, and without a pool it becomes
        empty and the frame is refused); on leaving, does nothing. */
    method StartRendering(enter: bool) returns (ok: bool)
      requires Valid()
      modifies this`currentRenderTarget, pools`free, device`nextHandle, device`owner
      ensures Valid()
      ensures !enter ==> ok && currentRenderTarget == old(currentRenderTarget) && unchanged(device)
      ensures enter && texturePool == null ==> !ok && currentRenderTarget == null && unchanged(device)
      ensures enter && texturePool != null ==>
        ok && currentRenderTarget != null && currentRenderTarget.pool == texturePool &&
        currentRenderTarget.Description() == texturePool.description &&
        texturePool.View() == Step(old(texturePool.View()), Rented) &&
        (old(texturePool.free) != [] ==> currentRenderTarget == old(texturePool.free)[|old(texturePool.free)| - 1])
      ensures texturePool != null && !(enter && texturePool != null) ==> texturePool.free == old(texturePool.free)
    {
      if enter {
        if texturePool == null {
          currentRenderTarget := null;
          return false;
        }
        RentPending();
      }
      ok := true;
    }

    /** StartRendering's rent: the current pool's Rent fills the pending
        slot, replacing whatever was there. */
    method RentPending()
      requires Valid() && texturePool != null
      modifies this`currentRenderTarget, texturePool`free, device`nextHandle, device`owner
      ensures Valid()
      ensures currentRenderTarget != null && currentRenderTarget.pool == texturePool
      ensures currentRenderTarget.Description() == texturePool.description
      ensures texturePool.View() == Step(old(texturePool.View()), Rented)
      ensures old(texturePool.free) != [] ==> currentRenderTarget == old(texturePool.free)[|old(texturePool.free)| - 1]
      ensures device.released == old(device.released)
    {
      currentRenderTarget := null;
      var t := RentFromCurrentPool();
      currentRenderTarget := t;
    }

    /** The rent itself, with the pending slot empty: the texture comes from
        the current pool, is outstanding, and is in no other place. */
    method RentFromCurrentPool() returns (t: PooledTexture)
      requires Valid() && texturePool != null && currentRenderTarget == null
      modifies texturePool`free, device`nextHandle, device`owner
      ensures Valid() && InFlight(t) && t !in frames && t !in handedOut
      ensures t.pool == texturePool && t.Description() == texturePool.description
      ensures texturePool.View() == Step(old(texturePool.View()), Rented)
      ensures old(texturePool.free) != [] ==> t == old(texturePool.free)[|old(texturePool.free)| - 1]
      ensures device.released == old(device.released)
    {
      ghost var before := texturePool.free;
      t := texturePool.Rent();
      assert forall u | u in texturePool.free :: u in before;
      forall i | 0 <= i < |frames|
        ensures InFlight(frames[i]) && frames[i] != t
      {
        assert old(InFlight(frames[i]));
      }
      forall u | u in handedOut
        ensures InFlight(u) && u != t
      {
        assert old(InFlight(u));
      }
    }
  }

  /** The sequence that loses a texture: a session renders into a pending
      texture, is disposed, and the decoder's Swap then runs. The texture
      ends up in no slot, not queued and not in its pool, with both handles
      still unreleased. */
  method PendingLostAfterDispose(device: Device, deviceContext: DeviceContext)
    returns (session: Acquisition, lost: PooledTexture)
    requires device.Valid()
    modifies device
    ensures session.addingCompleted && session.currentRenderTarget == null && session.frames == []
    ensures lost.pool == session.texturePool && lost.Held() && lost !in lost.pool.free
  {
    session := new Acquisition(PlaybackContext(false), "clip.mp4", device, deviceContext);
    var _, _ := session.UpdateOuput(RenderConfig(1920, 1080));
    var entered := session.StartRendering(true);
    lost := session.currentRenderTarget;
    session.Dispose();
    var outcome := session.Swap();
    assert outcome == AddingCompletedThrown;
  }
}
