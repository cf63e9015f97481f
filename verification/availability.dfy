/**
 * Making a Docker client (docker.go): the availability check run when the
 * controller is created, with its retry loop after launching Docker for Mac.
 * The daemon's answers to the probes are a function of the probe's number
 * (0 is the first probe); the launch's outcome is an argument; a sleep is
 * counted, not waited.
 */
module Availability {
  import opened Common
  import opened Engine

  const StartFailed := Error("error: unable to start Docker for Mac")

  /** The retry counter value at which the loop gives up. */
  const GiveUpAt := 12

  /** The first probe number in [from, to) that the daemon answers. */
  function FirstAnswered(probe: nat -> Option<Error>, from: nat, to: nat): (k: Option<nat>)
    ensures k.Some? ==> from <= k.value < to && probe(k.value).None?
    decreases (to as int) - (from as int)
  {
    if from >= to then None else if probe(from).None? then Some(from) else FirstAnswered(probe, from + 1, to)
  }

  lemma {:induction false} FirstAnsweredIsFirst(probe: nat -> Option<Error>, from: nat, to: nat)
    ensures FirstAnswered(probe, from, to).None? <==> forall j :: from <= j < to ==> probe(j).Some?
    ensures FirstAnswered(probe, from, to).Some? ==> forall j :: from <= j < FirstAnswered(probe, from, to).value ==> probe(j).Some?
    decreases (to as int) - (from as int)
  {
    if from < to && probe(from).Some? {
      FirstAnsweredIsFirst(probe, from + 1, to);
    }
  }

  /** The outcome of ensureDockerIsAvailable: the error, whether Docker was launched, the sleeps and the probes made. */
  datatype Availability = Availability(err: Option<Error>, launched: bool, sleeps: nat, probes: nat)

  function AvailabilitySpec(goos: string, probe: nat -> Option<Error>, launch: Option<Error>): Availability {
    if probe(0).None? then Availability(None, false, 0, 1)
    else if goos != "darwin" then Availability(probe(0), false, 0, 1)
    else if launch.Some? then Availability(Some(StartFailed), true, 0, 1)
    else match FirstAnswered(probe, 1, GiveUpAt)
      case Some(k) => Availability(None, true, k, k + 1)
      case None => Availability(Some(StartFailed), true, GiveUpAt - 1, GiveUpAt)
  }

  method EnsureDockerIsAvailable(client: Daemon, goos: string, probe: nat -> Option<Error>, launch: Option<Error>)
    returns (err: Option<Error>, launched: bool, sleeps: nat, probes: nat)
    ensures Availability(err, launched, sleeps, probes) == AvailabilitySpec(goos, probe, launch)
  {
    launched, sleeps, probes := false, 0, 1;
    var listed := client.ContainerList(false, AnyLabels, probe(0));
    if listed.Failure? {
      err := Some(listed.error);
      if goos == "darwin" {
        launched := true;
        if launch.Some? {
          return Some(StartFailed), launched, sleeps, probes;
        }
        var retries := 0;
        while retries <= 12
          invariant 0 <= retries < GiveUpAt
          invariant sleeps == retries && probes == retries + 1
          invariant FirstAnswered(probe, 1, GiveUpAt) == FirstAnswered(probe, retries + 1, GiveUpAt)
          decreases 12 - retries
        {
          retries := retries + 1;
          if retries == 12 {
            return Some(StartFailed), launched, sleeps, probes;
          }
          sleeps := sleeps + 1;
          listed := client.ContainerList(false, AnyLabels, probe(retries));
          probes := probes + 1;
          if listed.Success? {
            return None, launched, sleeps, probes;
          }
        }
      }
    } else {
      err := None;
    }
    return err, launched, sleeps, probes;
  }

  /**
   * The retry state machine: an answered first probe never launches Docker;
   * off macOS the first probe's error is returned without a retry; otherwise
   * at most 11 re-probes are made, each after a sleep, the call succeeds iff
   * one of them is answered, and it stops at the first one answered.
   */
  lemma AvailabilityBounds(goos: string, probe: nat -> Option<Error>, launch: Option<Error>)
    ensures var a := AvailabilitySpec(goos, probe, launch);
      && (probe(0).None? ==> a.err.None? && !a.launched && a.probes == 1)
      && (probe(0).Some? && goos != "darwin" ==> a.err == probe(0) && !a.launched && a.probes == 1)
      && a.probes == a.sleeps + 1 && a.sleeps <= GiveUpAt - 1
      && (a.err.None? <==> probe(0).None? || (goos == "darwin" && launch.None? && exists j :: 1 <= j < GiveUpAt && probe(j).None?))
      && (a.err.Some? && goos == "darwin" && probe(0).Some? ==> a.err == Some(StartFailed))
      && (a.err.None? && a.launched ==> probe(a.sleeps).None? && forall j :: 0 <= j < a.sleeps ==> probe(j).Some?)
  {
    FirstAnsweredIsFirst(probe, 1, GiveUpAt);
  }

  /** NewController: no controller unless the client is made and the daemon is available. */
  method NewController(clientErr: Option<Error>, daemon: Daemon, goos: string, probe: nat -> Option<Error>, launch: Option<Error>)
    returns (c: Option<Daemon>, err: Option<Error>)
    ensures clientErr.Some? ==> c.None? && err == clientErr
    ensures clientErr.None? ==> err == AvailabilitySpec(goos, probe, launch).err
    ensures c.Some? <==> err.None?
    ensures c.Some? ==> c.value == daemon
  {
    if clientErr.Some? {
      return None, clientErr;
    }
    var launched, sleeps, probes;
    err, launched, sleeps, probes := EnsureDockerIsAvailable(daemon, goos, probe, launch);
    if err.Some? {
      return None, err;
    }
    return Some(daemon), None;
  }
}
