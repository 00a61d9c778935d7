/**
  The Plugin object and the part of the host it changes. Site holds the
  mutable world: the drop-in file, the cache directory, the log file and the
  'active_plugins' option. Plugin holds the configuration fixed when it is
  constructed and implements the operations of Plugin.php on that world.
  Results of host calls the model cannot see (copy, unlink, wp_cache_flush,
  nonce verification) are parameters.
 */
module PluginModel {
  import opened Wrappers
  import opened Files
  import opened Status
  import opened CacheDir
  import opened SizeFormat
  import opened LogTail
  import opened ActivePlugins
  import opened AdminMessages

  class Site {
    /** WP_CONTENT_DIR/object-cache.php, if it exists. */
    var dropin: Option<File>
    /** is_writable(WP_CONTENT_DIR), the drop-in's parent directory. */
    var contentWritable: bool
    /** Whether a file at the drop-in path is writable while it exists. */
    var dropinPathWritable: bool
    /** realpath(DOCKET_CACHE_PATH) is a readable directory. */
    var cacheReadable: bool
    /** The entries of DOCKET_CACHE_PATH by file name. */
    var cacheFiles: Dir
    /** The lines of DOCKET_CACHE_LOG_FILE, None when has_log() is false. */
    var log: Option<seq<string>>
    /** The 'active_plugins' option. */
    var activePlugins: seq<string>

    constructor (dropin: Option<File>, contentWritable: bool, dropinPathWritable: bool,
                 cacheReadable: bool, cacheFiles: Dir, log: Option<seq<string>>, activePlugins: seq<string>)
      ensures this.dropin == dropin && this.contentWritable == contentWritable
      ensures this.dropinPathWritable == dropinPathWritable
      ensures this.cacheReadable == cacheReadable && this.cacheFiles == cacheFiles
      ensures this.log == log && this.activePlugins == activePlugins
    {
      this.dropin := dropin;
      this.contentWritable := contentWritable;
      this.dropinPathWritable := dropinPathWritable;
      this.cacheReadable := cacheReadable;
      this.cacheFiles := cacheFiles;
      this.log := log;
      this.activePlugins := activePlugins;
    }
  }

  class Plugin {
    /** plugin_basename() of the main plugin file. */
    const hook: string
    /** The plugin's own includes/object-cache.php. */
    const bundled: File
    /** DOCKET_CACHE_DISABLED and DOCKET_CACHE_HALT. */
    const flags: Flags
    const site: Site
    /** The last `message` token the settings screen was loaded with. */
    var token: Option<string>

    constructor (hook: string, bundled: File, flags: Flags, site: Site)
      ensures this.hook == hook && this.bundled == bundled && this.flags == flags && this.site == site
      ensures token == None
    {
      this.hook := hook;
      this.bundled := bundled;
      this.flags := flags;
      this.site := site;
      token := None;
    }

    /**
      dropin_install(): copy the bundled file over the drop-in path when the
      content directory is writable; the result is the copy's.
     */
    method DropinInstall(copyOk: bool) returns (ok: bool)
      modifies site`dropin
      ensures ok == (site.contentWritable && copyOk)
      ensures site.dropin == if ok then Some(bundled) else old(site.dropin)
      ensures ok ==> GetStatus(flags, site.dropin, bundled) == if Halted(flags) then NotAvailable else Enabled
    {
      if site.contentWritable {
        ok := copyOk;
        if ok {
          site.dropin := Some(bundled);
        }
      } else {
        ok := false;
      }
    }

    /**
      dropin_uninstall(): unlink the drop-in when is_writable() holds for it,
      which needs the file to exist; the result is the unlink's.
     */
    method DropinUninstall(unlinkOk: bool) returns (ok: bool)
      modifies site`dropin
      ensures ok == (old(site.dropin).Some? && site.dropinPathWritable && unlinkOk)
      ensures site.dropin == if ok then None else old(site.dropin)
      ensures ok ==> GetStatus(flags, site.dropin, bundled) == if Halted(flags) then NotAvailable else Disabled
    {
      if site.dropin.Some? && site.dropinPathWritable {
        ok := unlinkOk;
        if ok {
          site.dropin := None;
        }
      } else {
        ok := false;
      }
    }

    /**
      dropin_remove(), run on deactivation and uninstall: only a drop-in that
      validates as this plugin's own is uninstalled, so a foreign drop-in is
      never deleted.
     */
    method DropinRemove(unlinkOk: bool)
      modifies site`dropin
      ensures !ValidateDropin(old(site.dropin), bundled) ==> site.dropin == old(site.dropin)
      ensures site.dropin ==
                if ValidateDropin(old(site.dropin), bundled) && site.dropinPathWritable && unlinkOk
                then None else old(site.dropin)
    {
      if ValidateDropin(site.dropin, bundled) {
        var _ := DropinUninstall(unlinkOk);
      }
    }

    /** empty_log(): unlink the log when has_log() holds. */
    method EmptyLog(unlinkOk: bool) returns (ok: bool)
      modifies site`log
      ensures ok == (old(site.log).Some? && unlinkOk)
      ensures site.log == if ok then None else old(site.log)
    {
      if site.log.Some? {
        ok := unlinkOk;
        if ok {
          site.log := None;
        }
      } else {
        ok := false;
      }
    }

    /**
      tail_log(limit): the last `limit` log lines, each trimmed, without the
      lines PHP's empty() holds for; nothing when there is no readable log.
     */
    method TailLog(limit: nat) returns (output: seq<string>)
      ensures output == if site.log.Some? then KeptLines(Tail(site.log.value, limit)) else []
      ensures |output| <= limit
    {
      output := [];
      var log := site.log;
      if log.Some? {
        var lines := Tail(log.value, limit);
        var i := 0;
        while i < |lines|
          invariant i <= |lines|
          invariant output == KeptLines(lines[..i])
          invariant |output| <= i
        {
          var line := Trim(lines[i]);
          if !IsBlank(line) {
            output := output + [line];
          }
          KeptLinesStep(lines, i);
          i := i + 1;
        }
        assert lines[..i] == lines;
      }
    }

    /**
      get_dirsize(): the sizes of every cache entry except index.php, added
      up and normalized; 0 bytes when the cache directory cannot be read.
     */
    method GetDirsize(sizeFormat: Formatter) returns (size: string)
      ensures size == NormalizeSize(if site.cacheReadable then DirBytes(site.cacheFiles) else 0, sizeFormat)
    {
      var total := 0;
      if site.cacheReadable {
        var listing := site.cacheFiles;
        var todo := listing.Keys;
        while todo != {}
          invariant todo <= listing.Keys
          invariant total + SumSizes(listing, todo - {IndexFile}) == DirBytes(listing)
          decreases todo
        {
          var fn :| fn in todo;
          var rest := todo - {fn};
          if fn != IndexFile {
            SumSizesRemove(listing, todo - {IndexFile}, fn);
            assert rest - {IndexFile} == todo - {IndexFile} - {fn};
            total := total + listing[fn].size;
          } else {
            assert rest - {IndexFile} == todo - {IndexFile};
          }
          todo := rest;
        }
      }
      size := NormalizeSize(total, sizeFormat);
    }

    /**
      garbage_collector(): one sweep of the cache directory at time `now`,
      unlinking every collectable entry; nothing when the directory cannot be read.
     */
    method GarbageCollector(now: int)
      modifies site`cacheFiles
      ensures site.cacheFiles == if site.cacheReadable then Swept(old(site.cacheFiles), now) else old(site.cacheFiles)
    {
      if site.cacheReadable {
        var listing := site.cacheFiles;
        var todo := listing.Keys;
        while todo != {}
          invariant todo <= listing.Keys
          invariant site.cacheFiles ==
                      map fn | fn in listing && (fn in todo || !Collectable(fn, listing[fn], now)) :: listing[fn]
          decreases todo
        {
          var fn :| fn in todo;
          if Extension(fn) == "php" && fn != IndexFile {
            var fm := now + GraceSeconds;
            var f := listing[fn];
            if fm >= f.mtime && (f.size == 0 || StartsWith(fn, DumpPrefix)) {
              site.cacheFiles := site.cacheFiles - {fn};
            }
          }
          todo := todo - {fn};
        }
      }
    }

    /** The shutdown action: move this plugin's basename to the front of 'active_plugins'. */
    method ReorderActivePlugins()
      modifies site`activePlugins
      ensures site.activePlugins == MoveToFront(old(site.activePlugins), hook)
    {
      var plugins := site.activePlugins;
      if |plugins| > 0 {
        var found, i := Search(plugins, hook);
        if found && hook != plugins[0] {
          site.activePlugins := [hook] + plugins[..i] + plugins[i + 1..];
        }
      }
    }

    /**
      The first load-<screen> handler: run the requested action and say where
      to redirect. A missing `action` or `_wpnonce` reads as an unlisted
      action or a nonce that does not verify. Every action but the cache
      flush needs a writable content directory; without one nothing happens.
     */
    method HandleAction(action: string, nonceValid: bool, flushOk: bool, copyOk: bool, unlinkOk: bool)
      returns (redirect: Option<Redirect>)
      modifies site`dropin, site`log
      ensures ParseAction(action).None? || !nonceValid ==>
                redirect == None && site.dropin == old(site.dropin) && site.log == old(site.log)
      ensures ParseAction(action) == Some(FlushCache) && nonceValid ==>
                redirect == Some(Redirect(ActionToken(FlushCache, flushOk), false)) &&
                site.dropin == old(site.dropin) && site.log == old(site.log)
      ensures ParseAction(action).Some? && ParseAction(action) != Some(FlushCache) && nonceValid &&
              !site.contentWritable ==>
                redirect == None && site.dropin == old(site.dropin) && site.log == old(site.log)
      ensures (ParseAction(action) == Some(EnableCache) || ParseAction(action) == Some(UpdateDropin)) && nonceValid && site.contentWritable ==>
                redirect == Some(Redirect(ActionToken(ParseAction(action).value, copyOk), false)) &&
                site.dropin == (if copyOk then Some(bundled) else old(site.dropin)) && site.log == old(site.log)
      ensures ParseAction(action) == Some(DisableCache) && nonceValid && site.contentWritable ==>
                var ok := old(site.dropin).Some? && site.dropinPathWritable && unlinkOk;
                redirect == Some(Redirect(ActionToken(DisableCache, ok), false)) &&
                site.dropin == (if ok then None else old(site.dropin)) && site.log == old(site.log)
      ensures ParseAction(action) == Some(FlushLog) && nonceValid && site.contentWritable ==>
                var ok := old(site.log).Some? && unlinkOk;
                redirect == Some(Redirect(ActionToken(FlushLog, ok), true)) &&
                site.log == (if ok then None else old(site.log)) && site.dropin == old(site.dropin)
      ensures redirect.Some? ==> SettingsNotice(redirect.value.message).text.Some?
    {
      var parsed := ParseAction(action);
      if parsed.None? || !nonceValid {
        return None;
      }
      var a := parsed.value;
      var message: Option<string> := None;
      if a == FlushCache {
        message := Some(ActionToken(FlushCache, flushOk));
        TokenShowsOutcome(FlushCache, flushOk);
      }
      if site.contentWritable {
        var ok: bool;
        match a
        case EnableCache =>
          ok := DropinInstall(copyOk);
          message := Some(ActionToken(a, ok));
        case DisableCache =>
          ok := DropinUninstall(unlinkOk);
          message := Some(ActionToken(a, ok));
        case UpdateDropin =>
          ok := DropinInstall(copyOk);
          message := Some(ActionToken(a, ok));
        case FlushLog =>
          ok := EmptyLog(unlinkOk);
          message := Some(ActionToken(a, ok));
        case FlushCache =>
      }
      redirect := if message.Some? then Some(Redirect(message.value, a == FlushLog)) else None;
    }

    /**
      The second load-<screen> handler, when a `message` token is present:
      remember the token and register its notice.
     */
    method ShowNotice(message: string) returns (notice: Notice)
      modifies this`token
      ensures token == Some(message)
      ensures notice == SettingsNotice(message)
    {
      token := Some(message);
      notice := SettingsNotice(message);
    }
  }
}
