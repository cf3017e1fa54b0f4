/** The clipboard of one machine, updated in place. No I/O happens here:
    every operation returns what the caller is asked to do. */
module Clipboards {
  import opened Basics
  import opened Stamps
  import opened Files
  import opened Copies
  import opened Serving
  import opened Boards

  class Clipboard {
    const me: Machine
    var clip: Option<Clip>
    var expires: Option<int>
    var applied: Option<Stamp>
    var served: Option<Hash>
    var tree: Option<Bytes>

    /** The board this object stands for. */
    ghost function State(): Board
      reads this
    {
      Board(clip, expires, applied, served, tree)
    }

    constructor (me: Machine, saved: Option<Clip>, clock: Clock)
      ensures this.me == me
      ensures State() == Resume(me, saved, clock)
    {
      this.me := me;
      clip, expires, applied, served, tree := None, None, None, None, None;
      new;
      if saved.Some? {
        Set(saved.value, clock.held);
        var _ := Lapse(clock.lapse);
        var _ := Apply();
      }
    }

    function Head(): (head: Option<Stamp>)
      reads this
      ensures head == State().Head()
    {
      if clip.None? then None else Some(clip.value.stamp)
    }

    predicate IsOurs()
      reads this
      ensures IsOurs() == State().IsOurs(me)
    {
      clip.Some? && clip.value.stamp.origin == me.origin
    }

    function Saved(): (saved: Option<Clip>)
      reads this
      ensures saved == State().Saved()
    {
      if clip.Some? && clip.value.copy.Some? && clip.value.copy.value.secret then
        Some(Clip(clip.value.stamp, None))
      else clip
    }

    method Copying(selection: Selection, files: seq<FileRef>, secret: bool, ttl: Option<nat>, clock: Clock)
      returns (result: Result<seq<Effect>, Refusal>)
      modifies this
      ensures match old(State()).Copying(me, selection, files, secret, ttl, clock)
              case Ok(done) => State() == done.board && result == Ok(done.effects)
              case Err(refusal) => State() == old(State()) && result == Err(refusal)
    {
      var size := selection.Size();
      if size == 0 {
        return Err(NothingToCopy);
      }
      if size > me.settings.MaxBytes() {
        return Err(OverLimit);
      }
      var copy := Copy(selection, secret, Lifetime(me.settings, secret, ttl), files);
      if !copy.Check() {
        return Err(BadCopy);
      }
      var effects := Replace(Some(copy), clock);
      var applying := Apply();
      return Ok(effects + applying);
    }

    method Capturing(captured: Captured, files: seq<FileRef>, clock: Clock) returns (effects: seq<Effect>)
      modifies this
      ensures State() == old(State()).Capturing(me, captured, files, clock).board
      ensures effects == old(State()).Capturing(me, captured, files, clock).effects
    {
      if !me.settings.capture {
        return [];
      }
      var fitting := FitSelection(captured.selection);
      if fitting.None? {
        return [];
      }
      var selection := fitting.value;
      if clip.Some? && clip.value.copy.Some? {
        var primary := selection.primary.bytes;
        if clip.value.copy.value.selection.primary.bytes == primary || served == Some(Digest(primary)) {
          applied := Some(clip.value.stamp);
          return [];
        }
      }
      var copy := Copy(selection, captured.secret, Lifetime(me.settings, captured.secret, None), files);
      if !copy.Check() {
        return [];
      }
      effects := Replace(Some(copy), clock);
      applied := Head();
    }

    method Accepting(offered: Clip, clock: Clock) returns (result: Result<seq<Effect>, Refusal>)
      modifies this
      ensures match old(State()).Accepting(me, offered, clock)
              case Ok(done) => State() == done.board && result == Ok(done.effects)
              case Err(refusal) => State() == old(State()) && result == Err(refusal)
    {
      if Le(Some(offered.stamp), Head()) {
        return Ok([]);
      }
      if offered.stamp.origin == me.origin {
        return Err(ClaimsOurs);
      }
      if !Plausible(offered.stamp, clock.stamp) {
        return Err(TooFarAhead);
      }
      if offered.copy.Some? && !offered.copy.value.Check() {
        return Err(BadCopy);
      }
      Set(offered, clock.held);
      var _ := Lapse(clock.lapse);
      var applying := Apply();
      return Ok([Save] + applying);
    }

    method Clearing(clock: Clock) returns (effects: seq<Effect>)
      modifies this
      ensures State() == old(State()).Clearing(me, clock).board
      ensures effects == old(State()).Clearing(me, clock).effects
    {
      effects := Replace(None, clock);
      var applying := Apply();
      effects := effects + applying;
    }

    method Expiring(now: int) returns (effects: seq<Effect>)
      modifies this
      ensures State() == old(State()).Expiring(me, now).board
      ensures effects == old(State()).Expiring(me, now).effects
    {
      var lapsed := Lapse(now);
      if !lapsed {
        return [];
      }
      var applying := Apply();
      effects := [Save] + applying;
    }

    method Materializing(stamp: Stamp, at: Bytes) returns (effects: seq<Effect>)
      modifies this
      ensures State() == old(State()).Materializing(me, stamp, at).board
      ensures effects == old(State()).Materializing(me, stamp, at).effects
    {
      if Head() != Some(stamp) {
        return [];
      }
      tree := Some(at);
      effects := Apply();
    }

    /** Empties the clip when its deadline is at or before `now`; true then. */
    method Lapse(now: int) returns (lapsed: bool)
      modifies this
      ensures lapsed == old(State()).Lapses(now)
      ensures State() == old(State()).Lapse(now)
    {
      lapsed := expires.Some? && now >= expires.value;
      if lapsed && clip.Some? {
        Set(Clip(clip.value.stamp, None), now);
      }
    }

    /** Sets a copy under a stamp of this machine that comes after the head. */
    method Replace(copy: Option<Copy>, clock: Clock) returns (effects: seq<Effect>)
      modifies this
      ensures State() == old(State()).Replace(me, copy, clock)
      ensures effects == [Save]
    {
      var stamp := Next(Head(), me.origin, clock.stamp);
      Set(Clip(stamp, copy), clock.held);
      return [Save];
    }

    method Set(next: Clip, now: int)
      modifies this
      ensures State() == old(State()).Set(next, now)
    {
      expires := Deadline(next, now);
      served, tree := None, None;
      clip := Some(next);
    }

    /** Asks for the offer or the clearing that `Board.Apply` says, and keeps in
        mind what it keeps. */
    method Apply() returns (effects: seq<Effect>)
      modifies this
      ensures State() == old(State()).Apply(me).board
      ensures effects == old(State()).Apply(me).effects
    {
      if !me.settings.apply || clip.None? {
        return [];
      }
      match clip.value.copy {
        case Some(copy) =>
          effects := [];
          if copy.IsFiles() && me.settings.files && !IsOurs() && tree.None? {
            effects := [Fetch(clip.value.stamp)];
          }
          var offered := MakeOffer(copy);
          applied, served := Some(clip.value.stamp), Some(Digest(Carried(copy, IsOurs(), tree).primary.bytes));
          effects := effects + [Backend(Offer(offered))];
        case None =>
          if applied.Some? {
            applied := None;
            return [Backend(Empty)];
          }
          return [];
      }
    }

    /** What the compositor is offered, a secret marked as one. */
    method MakeOffer(copy: Copy) returns (offered: seq<Serve>)
      ensures offered == OfferOf(copy, IsOurs(), tree)
    {
      offered := MakeServes(Carried(copy, IsOurs(), tree));
      if copy.secret {
        offered := offered + [SECRET_SERVE];
      } else {
        assert offered == offered + [];
      }
    }

    /** The loop behind `Fit`: one alternate less until the size is right. */
    method FitSelection(selection: Selection) returns (fitting: Option<Selection>)
      ensures fitting == Fit(selection, me.settings.MaxBytes())
    {
      var cap := me.settings.MaxBytes();
      var kept := selection;
      var size := selection.Size();
      while size > cap
        invariant size == kept.Size()
        invariant Fit(kept, cap) == Fit(selection, cap)
        decreases |kept.alternates|
      {
        if kept.alternates == [] {
          return None;
        }
        var last := |kept.alternates| - 1;
        PrefixSize(kept, last);
        assert Prefix(kept, last + 1) == kept;
        size := size - |kept.alternates[last].bytes|;
        kept := Selection(kept.primary, kept.alternates[..last]);
      }
      return Some(kept);
    }
  }
}
