/**
 * The managed host: its files, what systemd has loaded and is running, the enabled timers, and what
 * Caddy is serving. Every method is one file call or one command, and any of them can fail or be the
 * last thing a dying process does.
 */
module Host {
  import opened Wrappers
  import opened Faults
  import opened Paths

  class Host {
    var files: map<File, string>
    var dirs: set<Dir>
    /** Unit name to unit text, as of the last `daemon-reload`. */
    var loaded: map<string, string>
    /** Unit name to the text its container was started from. */
    var running: map<string, string>
    /** Enabled timers, by stem. */
    var timers: set<string>
    /** Fragment name to text, as of Caddy's last reload. */
    var proxied: map<string, string>
    const calm: bool
    /** The schedules `systemd-analyze calendar` rejects. */
    const badSchedules: set<string>

    ghost predicate Valid()
      reads this
    {
      forall f | f in files :: f.dir in dirs
    }

    // ---- files -----------------------------------------------------------------------------

    method Exists(f: File) returns (r: Io<bool>)
      ensures r.Ok? ==> r.value == (f in files)
      ensures calm ==> r.Ok?
    {
      var fault := Strike(calm);
      return if fault.Fine? then Ok(f in files) else if fault.Err() then Err else Crash;
    }

    method ReadFile(f: File) returns (r: Io<string>)
      ensures r.Ok? ==> f in files && r.value == files[f]
      ensures calm && f in files ==> r.Ok?
      ensures calm ==> !r.Crash?
    {
      var fault := Strike(calm);
      return if fault.Fine? && f in files then Ok(files[f]) else if fault.Fine? || fault.Err() then Err else Crash;
    }

    method WriteFile(f: File, text: string) returns (r: Io<()>)
      requires Valid()
      modifies `files
      ensures Valid()
      ensures files == old(files) || files == old(files)[f := text]
      ensures r.Ok? ==> files == old(files)[f := text]
      ensures calm && f.dir in dirs ==> r.Ok?
      ensures calm ==> !r.Crash?
    {
      var fault := Strike(calm);
      if f.dir !in dirs { return if fault.Fine? || fault.Err() then Err else Crash; }
      if !fault.Before() && !fault.Midway() {
        files := files[f := text];
      }
      return if fault.Fine? then Ok(()) else if fault.Err() then Err else Crash;
    }

    method RemoveFile(f: File) returns (r: Io<()>)
      requires Valid()
      modifies `files
      ensures Valid()
      ensures files == old(files) || files == old(files) - {f}
      ensures r.Ok? ==> files == old(files) - {f}
      ensures calm && f in old(files) ==> r.Ok?
      ensures calm ==> !r.Crash?
    {
      var fault := Strike(calm);
      if f !in files { return if fault.Fine? || fault.Err() then Err else Crash; }
      if !fault.Before() && !fault.Midway() {
        files := files - {f};
      }
      return if fault.Fine? then Ok(()) else if fault.Err() then Err else Crash;
    }

    method CreateDirAll(d: Dir) returns (r: Io<()>)
      requires Valid()
      modifies `dirs
      ensures Valid()
      ensures dirs == old(dirs) || dirs == old(dirs) + {d}
      ensures r.Ok? ==> d in dirs
      ensures calm ==> r.Ok?
    {
      var fault := Strike(calm);
      if !fault.Before() && !fault.Midway() {
        dirs := dirs + {d};
      }
      return if fault.Fine? then Ok(()) else if fault.Err() then Err else Crash;
    }

    method DirExists(d: Dir) returns (r: Io<bool>)
      ensures r.Ok? ==> r.value == (d in dirs)
      ensures calm ==> r.Ok?
    {
      var fault := Strike(calm);
      return if fault.Fine? then Ok(d in dirs) else if fault.Err() then Err else Crash;
    }

    /** The entries of a directory, in no particular order. */
    method ReadDir(d: Dir) returns (r: Io<seq<File>>)
      ensures r.Ok? ==> forall f :: f in r.value <==> f in files && f.dir == d
      ensures r.Ok? ==> forall i, j | 0 <= i < j < |r.value| :: r.value[i] != r.value[j]
      ensures calm && d in dirs ==> r.Ok?
      ensures calm ==> !r.Crash?
    {
      var fault := Strike(calm);
      if !fault.Fine? || d !in dirs {
        return if fault.Fine? || fault.Err() then Err else Crash;
      }
      var entries: seq<File> := [];
      var rest := set f | f in files && f.dir == d;
      while rest != {}
        invariant forall f :: f in entries || f in rest <==> f in files && f.dir == d
        invariant forall f | f in entries :: f !in rest
        invariant forall i, j | 0 <= i < j < |entries| :: entries[i] != entries[j]
        decreases rest
      {
        var f :| f in rest;
        entries := entries + [f];
        rest := rest - {f};
      }
      return Ok(entries);
    }

    // ---- systemd ---------------------------------------------------------------------------

    /** `systemd-analyze calendar`: whether the schedule parses. */
    method AnalyzeCalendar(schedule: string) returns (r: Io<bool>)
      ensures r.Ok? ==> r.value == (schedule !in badSchedules)
      ensures calm ==> r.Ok?
    {
      var fault := Strike(calm);
      return if fault.Fine? then Ok(schedule !in badSchedules) else if fault.Err() then Err else Crash;
    }

    /** What `daemon-reload` makes of the Quadlet directory. */
    ghost predicate LoadedIsCurrent()
      reads this
    {
      && (forall u :: u in loaded <==> TaskContainer(u) in files)
      && (forall u | u in loaded :: loaded[u] == files[TaskContainer(u)])
    }

    method DaemonReload() returns (r: Io<()>)
      modifies `loaded
      ensures r.Ok? ==> LoadedIsCurrent()
      ensures calm ==> r.Ok?
    {
      var fault := Strike(calm);
      if !fault.Before() && !fault.Midway() {
        loaded := map f | f in files && f.dir == Quadlet && f.ext == Some("container") :: f.stem := files[f];
        assert forall u | u in loaded :: TaskContainer(u) in files;
        assert forall f | f in files && f.dir == Quadlet && f.ext == Some("container") :: f == TaskContainer(f.stem);
      }
      return if fault.Fine? then Ok(()) else if fault.Err() then Err else Crash;
    }

    /** `systemctl start`: nothing happens to a unit that is already running. */
    method Start(u: string) returns (r: Io<()>)
      modifies `running
      ensures running == old(running) || (u !in old(running) && u in loaded && running == old(running)[u := loaded[u]])
      ensures r.Ok? ==> u in running
      ensures calm && u in loaded ==> r.Ok?
      ensures calm ==> !r.Crash?
    {
      var fault := Strike(calm);
      if u in running { return if fault.Fine? then Ok(()) else if fault.Err() then Err else Crash; }
      if u !in loaded { return if fault.Fine? || fault.Err() then Err else Crash; }
      if !fault.Before() && !fault.Midway() {
        running := running[u := loaded[u]];
      }
      return if fault.Fine? then Ok(()) else if fault.Err() then Err else Crash;
    }

    /** `systemctl restart`: cut short, it can leave the unit stopped. */
    method Restart(u: string) returns (r: Io<()>)
      modifies `running
      ensures || running == old(running)
              || running == old(running) - {u}
              || (u in loaded && running == old(running)[u := loaded[u]])
      ensures r.Ok? ==> u in loaded && running == old(running)[u := loaded[u]]
      ensures calm && u in loaded ==> r.Ok?
      ensures calm ==> !r.Crash?
    {
      var fault := Strike(calm);
      if u !in loaded { return if fault.Fine? || fault.Err() then Err else Crash; }
      if fault.Midway() {
        running := running - {u};
      } else if !fault.Before() {
        running := running[u := loaded[u]];
      }
      return if fault.Fine? then Ok(()) else if fault.Err() then Err else Crash;
    }

    method Stop(u: string) returns (r: Io<()>)
      modifies `running
      ensures running == old(running) || running == old(running) - {u}
      ensures r.Ok? ==> running == old(running) - {u}
      ensures calm ==> r.Ok?
    {
      var fault := Strike(calm);
      if !fault.Before() && !fault.Midway() {
        running := running - {u};
      }
      return if fault.Fine? then Ok(()) else if fault.Err() then Err else Crash;
    }

    /** `systemctl enable --now`: systemd only finds a timer in its own directory. */
    method EnableNow(timer: string) returns (r: Io<()>)
      modifies `timers
      ensures timers == old(timers) || timers == old(timers) + {timer}
      ensures r.Ok? ==> TaskTimer(timer) in files && timers == old(timers) + {timer}
      ensures calm && TaskTimer(timer) in files ==> r.Ok?
      ensures calm ==> !r.Crash?
    {
      var fault := Strike(calm);
      if File(Systemd, timer, Some("timer")) !in files { return if fault.Fine? || fault.Err() then Err else Crash; }
      if !fault.Before() && !fault.Midway() {
        timers := timers + {timer};
      }
      return if fault.Fine? then Ok(()) else if fault.Err() then Err else Crash;
    }

    method DisableNow(timer: string) returns (r: Io<()>)
      modifies `timers
      ensures timers == old(timers) || timers == old(timers) - {timer}
      ensures r.Ok? ==> timers == old(timers) - {timer}
      ensures calm ==> r.Ok?
    {
      var fault := Strike(calm);
      if !fault.Before() && !fault.Midway() {
        timers := timers - {timer};
      }
      return if fault.Fine? then Ok(()) else if fault.Err() then Err else Crash;
    }

    // ---- Caddy -----------------------------------------------------------------------------

    ghost predicate ProxiedIsCurrent()
      reads this
    {
      && (forall s :: s in proxied <==> Fragment(s) in files)
      && (forall s | s in proxied :: proxied[s] == files[Fragment(s)])
    }

    method ReloadCaddy() returns (r: Io<()>)
      modifies `proxied
      ensures proxied == old(proxied) || ProxiedIsCurrent()
      ensures r.Ok? ==> ProxiedIsCurrent()
      ensures calm ==> r.Ok?
    {
      var fault := Strike(calm);
      if !fault.Before() && !fault.Midway() {
        proxied := map f | f in files && f.dir == Caddy && f.ext == Some("caddy") :: f.stem := files[f];
        assert forall s | s in proxied :: Fragment(s) in files;
        assert forall f | f in files && f.dir == Caddy && f.ext == Some("caddy") :: f == Fragment(f.stem);
      }
      return if fault.Fine? then Ok(()) else if fault.Err() then Err else Crash;
    }

    // ---- commands that change nothing the model tracks -------------------------------------

    /** git, podman build and podman secret: they succeed, fail, or are cut. */
    method Run() returns (r: Io<()>)
      ensures calm ==> r.Ok?
    {
      var fault := Strike(calm);
      return if fault.Fine? then Ok(()) else if fault.Err() then Err else Crash;
    }
  }
}
