/** `VolumeController` of main.py: amixer calls, fire and forget. */
module Volume {

  /** `amixer set Master unmute`, `... 5%+`, `... 5%-` (VOLUME_STEP is '5%'). */
  datatype Call = Unmute | Up | Down

  /** `adjust(direction)`: nothing without amixer; otherwise unmute, then the
      step for "up" or "down" (any other direction stops after unmuting). */
  function Adjusted(calls: seq<Call>, amixer: bool, direction: string): seq<Call>
  {
    if !amixer then calls
    else if direction == "up" then calls + [Unmute, Up]
    else if direction == "down" then calls + [Unmute, Down]
    else calls + [Unmute]
  }

  /** Every volume step is issued right after an unmute. */
  predicate UnmutedFirst(calls: seq<Call>)
  {
    forall i :: 0 <= i < |calls| && calls[i] != Unmute ==> 0 < i && calls[i - 1] == Unmute
  }

  lemma AdjustUnmutesFirst(calls: seq<Call>, amixer: bool, direction: string)
    requires UnmutedFirst(calls)
    ensures UnmutedFirst(Adjusted(calls, amixer, direction))
    ensures amixer && direction == "up" ==> Adjusted(calls, amixer, direction)[|calls| + 1] == Up
    ensures amixer && direction == "down" ==> Adjusted(calls, amixer, direction)[|calls| + 1] == Down
    ensures !amixer ==> Adjusted(calls, amixer, direction) == calls
    ensures Adjusted(calls, amixer, direction)[..|calls|] == calls
    ensures amixer ==> |Adjusted(calls, amixer, direction)| > |calls| && Adjusted(calls, amixer, direction)[|calls|] == Unmute
    ensures amixer && (direction == "up" || direction == "down") ==> |Adjusted(calls, amixer, direction)| == |calls| + 2
    ensures amixer && direction != "up" && direction != "down" ==> |Adjusted(calls, amixer, direction)| == |calls| + 1
  {
  }

  class VolumeController {
    /** Whether `shutil.which('amixer')` finds the binary. */
    const amixerAvailable: bool
    var calls: seq<Call>

    constructor (amixerAvailable: bool)
      ensures this.amixerAvailable == amixerAvailable && calls == []
    {
      this.amixerAvailable := amixerAvailable;
      calls := [];
    }

    /** `adjust`. */
    method Adjust(direction: string)
      modifies this
      ensures calls == Adjusted(old(calls), amixerAvailable, direction)
    {
      if !amixerAvailable {
        return;
      }
      calls := calls + [Unmute];
      if direction == "up" {
        calls := calls + [Up];
      } else if direction == "down" {
        calls := calls + [Down];
      }
    }
  }
}
