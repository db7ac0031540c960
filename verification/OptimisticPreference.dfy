/**
 One writer for one preference: a click shows at once and is saved after a pause, one save at a time, and a failed
 save is followed by a recovery. Each method is one turn of the event loop; a suspended save or recovery is a
 flight, and nothing but the code itself keeps flights from overlapping.
 */
module OptimisticPreference {
  // `at` is the revision that was shown when the flight began.
  datatype Flight<T> = Saving(at: nat, target: T) | Recovering(at: nat, reported: bool)

  datatype Notice = Changed | FailedNotice

  class Preference<T(==)> {
    const equal: (T, T) -> bool
    var confirmed: T
    var desired: T
    var revision: nat
    var running: bool
    var disposed: bool
    var stale: bool
    var timer: bool
    // The browser-work token, and how often one was taken and given back.
    var token: bool
    var taken: nat
    var released: nat
    var flights: seq<Flight<T>>
    // What the owner was told.
    var notices: seq<Notice>
    // How often the preference has begun to be pending.
    ghost var periods: nat

    predicate Pending()
      reads this
    {
      running || timer
    }

    ghost predicate Flying()
      reads this
    {
      && |flights| <= 1 && (running <==> |flights| == 1)
      && (forall f <- flights :: f.at <= revision && (f.at == revision ==> !timer))
    }

    ghost predicate Tokens()
      reads this
    {
      taken == periods && taken == released + if token then 1 else 0
    }

    ghost predicate Valid()
      reads this
    {
      && Flying() && Tokens()
      && (token <==> Pending() && !disposed)
      && (!Pending() && !disposed ==> desired == confirmed)
      && (stale ==> !Pending())
      && (disposed ==> !timer)
    }

    constructor (initial: T, equal: (T, T) -> bool)
      ensures Valid() && desired == confirmed == initial && !Pending() && !disposed && !stale && this.equal == equal
    {
      this.equal := equal;
      confirmed, desired, revision := initial, initial, 0;
      running, disposed, stale, timer, token := false, false, false, false, false;
      taken, released, periods, flights, notices := 0, 0, 0, [], [];
    }

    method Publish()
      modifies `token, `released, `notices
      ensures if Pending() then token == old(token) && released == old(released)
              else !token && released == old(released) + if old(token) then 1 else 0
      ensures notices == old(notices) + if disposed then [] else [Changed]
    {
      if !Pending() && token {
        token, released := false, released + 1;
      }
      if !disposed {
        notices := notices + [Changed];
      }
    }

    /** What holds between turns but for the moment after the timer fired or a flight landed. */
    ghost predicate Landing()
      reads this
    {
      && Flying() && Tokens() && (token <==> !disposed) && (disposed ==> !timer)
      && (stale ==> !running && !timer && desired == confirmed)
    }

    /** Starts a save of what is shown, unless there is one already or a later one is due. */
    method Flush()
      requires Landing() && !stale
      requires running ==> disposed || (forall f <- flights :: f.at < revision)
      modifies this
      ensures Valid() && !stale
      ensures confirmed == old(confirmed) && revision == old(revision) && timer == old(timer)
              && disposed == old(disposed) && periods == old(periods)
      ensures old(disposed || running || timer) ==>
                desired == old(desired) && flights == old(flights) && running == old(running)
      ensures !old(disposed || running || timer) ==>
                if equal(old(desired), confirmed) then desired == confirmed && flights == old(flights) && !Pending()
                else desired == old(desired) && flights == [Saving(revision, desired)]
      decreases 1
    {
      if disposed || running || timer {
        return;
      }
      var at, target := revision, desired;
      running := true;
      if !equal(target, confirmed) {
        flights := flights + [Saving(at, target)];
        return;
      }
      desired := confirmed;
      running := false;
      Publish();
    }

    /** The end of a flight, which is no longer among the flights. */
    method Land(at: nat)
      requires running && flights == [] && at <= revision && (at == revision ==> !timer)
      requires Tokens() && (token <==> !disposed) && (disposed ==> !timer)
      requires at == revision || stale ==> desired == confirmed || disposed
      modifies this
      ensures Valid()
      ensures confirmed == old(confirmed) && revision == old(revision) && disposed == old(disposed)
              && stale == old(stale) && periods == old(periods)
      ensures old(at == revision || stale || disposed) ==>
                && desired == old(desired) && flights == [] && !running && (stale || !old(timer) ==> !timer)
                && notices == old(notices) + if disposed then [] else [Changed]
      ensures desired == old(desired)
              || (desired == confirmed && equal(old(desired), confirmed) && at != revision && !stale)
      ensures !old(at == revision || stale || disposed) ==> timer == old(timer) && GoesOn(old(desired))
    {
      running := false;
      if stale {
        timer := false;
      }
      if !disposed && !stale && at != revision && !timer {
        Flush();
      } else {
        Publish();
      }
    }

    /**
     A newer selection than the one that has landed: it waits for its pause, or is saved now unless it is the same.
    */
    predicate GoesOn(selected: T)
      reads this
    {
      if timer then desired == selected && flights == []
      else if equal(selected, confirmed) then desired == confirmed && flights == [] && !Pending()
      else desired == selected && flights == [Saving(revision, desired)]
    }

    method Set(value: T)
      requires Valid()
      modifies this
      ensures Valid() && confirmed == old(confirmed) && flights == old(flights) && disposed == old(disposed)
              && stale == old(stale)
      ensures if disposed || stale then desired == old(desired) && timer == old(timer) && notices == old(notices)
              else desired == value && timer && revision == old(revision) + 1 && notices == old(notices) + [Changed]
      ensures periods == old(periods) + if old(disposed || stale || Pending()) then 0 else 1
    {
      if disposed || stale {
        return;
      }
      desired, revision := value, revision + 1;
      if !token {
        token, taken := true, taken + 1;
        periods := periods + 1;
      }
      timer := true;
      Publish();
    }

    /** The pause after a click is over. */
    method TimerFires()
      requires Valid() && timer
      modifies this
      ensures Valid() && !timer && confirmed == old(confirmed) && periods == old(periods)
      ensures old(running) ==> desired == old(desired) && flights == old(flights)
      ensures !old(running) ==>
                if equal(old(desired), confirmed) then desired == confirmed && flights == [] && !Pending()
                else desired == old(desired) && flights == [Saving(revision, desired)]
    {
      timer := false;
      Flush();
    }

    /** A save succeeds with a value. A selection made since then stays. */
    method Saved(value: T)
      requires Valid() && |flights| > 0 && flights[0].Saving?
      modifies this
      ensures Valid() && confirmed == value && stale == old(stale) && periods == old(periods)
              && disposed == old(disposed)
      ensures old(flights[0].at == revision) ==> desired == value && !Pending()
      ensures old(flights[0].at != revision)
              ==> desired == old(desired) || (desired == value && equal(old(desired), value))
      ensures old(flights[0].at != revision && !disposed) ==> timer == old(timer) && GoesOn(old(desired))
      ensures old(disposed) ==> notices == old(notices)
      ensures old(flights[0].at == revision && !disposed) ==> notices == old(notices) + [Changed]
    {
      var at := flights[0].at;
      confirmed := value;
      flights := flights[1..];
      if at == revision {
        desired := confirmed;
      }
      Land(at);
    }

    /** A save fails. The owner hears of it at once where nothing else has been selected, and recovery begins. */
    method SaveFails()
      requires Valid() && |flights| > 0 && flights[0].Saving?
      modifies this
      ensures Valid() && confirmed == old(confirmed) && revision == old(revision) && periods == old(periods)
              && stale == old(stale)
      ensures var reported := old(!disposed && flights[0].at == revision);
              && desired == (if reported then confirmed else old(desired))
              && flights == [Recovering(old(flights[0].at), reported)]
              && notices == old(notices) + if reported then [FailedNotice, Changed] else []
    {
      var at := flights[0].at;
      var reported := !disposed && at == revision;
      if reported {
        desired := confirmed;
        notices := notices + [FailedNotice, Changed];
      }
      flights := flights[0 := Recovering(at, reported)];
    }

    method Recovered(value: T)
      requires Valid() && |flights| > 0 && flights[0].Recovering?
      modifies this
      ensures Valid() && confirmed == value && !stale && periods == old(periods) && disposed == old(disposed)
      ensures old(flights[0].at == revision && !disposed) ==> desired == value && !Pending()
      ensures old(flights[0].at != revision)
              ==> desired == old(desired) || (desired == value && equal(old(desired), value))
      ensures old(flights[0].at != revision && !disposed) ==> timer == old(timer) && GoesOn(old(desired))
      ensures old(disposed) ==> notices == old(notices) && desired == old(desired)
      ensures old(flights[0].at == revision && !disposed) ==> notices == old(notices) + [Changed]
    {
      var at := flights[0].at;
      confirmed := value;
      if !disposed && at == revision {
        desired := confirmed;
      }
      flights := flights[1..];
      Land(at);
    }

    /** Recovery fails too: only then is a newer selection given up, and the store is stale. */
    method RecoverFails()
      requires Valid() && |flights| > 0 && flights[0].Recovering?
      modifies this
      ensures Valid() && stale && !Pending() && confirmed == old(confirmed) && periods == old(periods)
              && disposed == old(disposed)
      ensures desired == if disposed then old(desired) else confirmed
      ensures notices == old(notices)
              + (if disposed then [] else if old(flights[0].reported) then [Changed] else [FailedNotice, Changed])
    {
      var at, reported := flights[0].at, flights[0].reported;
      stale := true;
      if !disposed {
        desired := confirmed;
        if !reported {
          notices := notices + [FailedNotice];
        }
      }
      flights := flights[1..];
      Land(at);
    }

    /** The server's value arrives, which counts only while nothing is pending. */
    method Observe(value: T)
      requires Valid()
      modifies this
      ensures Valid() && flights == old(flights) && periods == old(periods) && disposed == old(disposed)
      ensures if Pending() || disposed then desired == old(desired) && confirmed == old(confirmed)
              && stale == old(stale)
              else desired == confirmed == value && !stale
      ensures notices == old(notices) + if old(Pending()) || disposed then [] else [Changed]
    {
      if Pending() || disposed {
        return;
      }
      confirmed, desired, stale := value, value, false;
      Publish();
    }

    method Dispose()
      requires Valid()
      modifies this
      ensures Valid() && disposed && !token && !timer && flights == old(flights) && notices == old(notices)
              && periods == old(periods)
    {
      disposed, timer := true, false;
      if token {
        token, released := false, released + 1;
      }
    }
  }
}
