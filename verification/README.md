# Docket Cache plugin core, modelled in Dafny

This project models the decision and bookkeeping logic of `includes/src/Plugin.php` from the
Docket Cache WordPress plugin. Docket Cache replaces the host's object cache with a drop-in
file, `WP_CONTENT_DIR/object-cache.php`. The model covers:

- **Status decision** (`Status`). `has_dropin`, `validate_dropin` and `get_status` are pure
  functions of the two kill switches (`DOCKET_CACHE_DISABLED`, `DOCKET_CACHE_HALT`), the
  drop-in file and the plugin's bundled `includes/object-cache.php`. The module also holds
  the status-label table.
- **Drop-in state machine** (`PluginModel.Plugin`). `dropin_install`, `dropin_uninstall`,
  `dropin_remove` and `empty_log` are methods that change a `Site`. A `Site` object holds the
  mutable world: the drop-in file, the cache directory, the log and the `active_plugins`
  option.
- **Garbage collection** (`CacheDir.Swept`, `Plugin.GarbageCollector`). The sweep over
  `DOCKET_CACHE_PATH` is a loop over the directory entries. It is proved equal to a
  specification function, and the sweep's guarantees are stated about that function.
- **Directory size** (`CacheDir.DirBytes`, `Plugin.GetDirsize`). The sum of entry sizes
  skips `index.php`. It is passed through `normalize_size` (`SizeFormat`). The host's
  `size_format` is treated as an uninterpreted formatter parameter.
- **Log tail** (`LogTail`, `Plugin.TailLog`). Lines are trimmed, and PHP-`empty()` lines are
  dropped.
- **Active-plugin reorder** (`ActivePlugins`, `Plugin.ReorderActivePlugins`). At shutdown the
  plugin moves its own basename to the front of `active_plugins`.
- **Settings-screen tables** (`AdminMessages`, `Plugin.HandleAction`, `Plugin.ShowNotice`).
  These map an action to a message token and a token to a notice.

Host calls whose outcome the model cannot see are parameters: `copy`, `unlink`,
`wp_cache_flush`, the nonce check, `time()` and `size_format`.

Points where the code's behaviour is easy to misread, modelled as written:

- `validate_dropin` compares only the "Name" headers. The Version header is never read.
- `normalize_size` strips every space and every `B`, so an exact 4 MiB becomes `"4M"`, not
  `"4MB"` (see `SizeFormat.FourMebibytes`).
- `normalize_size` re-renders when `".0"` occurs anywhere in the one-decimal rendering, not
  only when it is trailing.
- The garbage collector's time test is `mtime <= now + 120`. It holds for every file not
  dated more than 120 s in the future. It is kept as written.
- `tail_log` drops a line that is `"0"` after trimming, because PHP's `empty("0")` is true.
- In the settings handler, every action except the cache flush does nothing unless
  `WP_CONTENT_DIR` is writable. That includes flushing the log, whose file may live
  elsewhere.

## Model

| member | source | states |
|---|---|---|
| `Files.Extension` | includes/src/Plugin.php:777 | the extension is the dot-free text after the last '.', or empty when there is no '.' or the name ends in one |
| `Files.PhpExtension` | includes/src/Plugin.php:777 | an entry has extension "php" exactly when its name ends in ".php" |
| `Status.HasDropin` | includes/src/Plugin.php:59-62 | a drop-in is reported exactly when a file exists at the drop-in path |
| `Status.ValidateDropin` | includes/src/Plugin.php:78-89 | false without a drop-in; otherwise true exactly when the two Name headers are equal |
| `Status.GetStatus` | includes/src/Plugin.php:91-106 | the code is one of 2, 0, 1, -1; 2 when either kill switch is set; otherwise 0 iff no drop-in, 1 iff it validates, -1 iff present but invalid |
| `Status.StatusLabel` | includes/src/Plugin.php:48-53 | exactly the four status codes have a label |
| `Status.StatusAlwaysLabelled` | includes/src/Plugin.php:48-53 | every code get_status returns has a label, distinct from the other codes' labels |
| `Status.HaltedIgnoresFiles` | includes/src/Plugin.php:93-95 | with a kill switch set, the status is 2 whatever the drop-in and the bundled file are |
| `Status.ValidateOnlyReadsName` | includes/src/Plugin.php:84 | validity depends on the Name headers alone, never on Version, size or mtime |
| `Status.ForeignNameInvalid` | includes/src/Plugin.php:84-86 | a drop-in whose Name differs is invalid and gives status -1, even if identical otherwise |
| `Status.InstalledCopyEnables` | includes/src/Plugin.php:97-105 | a copy of the bundled file validates and gives status 1 (2 when halted); no drop-in gives 0 (2 when halted) |
| `CacheDir.Collectable` | includes/src/Plugin.php:777-781 | an entry is collected exactly when its name ends in ".php", it is not index.php, its mtime is at most now+120, and it is empty or a dump_ file |
| `CacheDir.Swept` | includes/src/Plugin.php:770-787 | the sweep only removes entries and leaves the others unchanged; an entry is removed exactly when it is collectable, so index.php, non-php entries, future-dated entries and non-empty non-dump_ entries stay, and every .php entry other than index.php with mtime <= now+120 that is empty or a dump_ file (of any size) goes |
| `CacheDir.SweptIdempotent` | includes/src/Plugin.php:775-783 | a second sweep at the same time removes nothing more |
| `CacheDir.SumSizes` | includes/src/Plugin.php:114-118 | the total of the named entries is at least the size of each of them, and 0 for no entries |
| `CacheDir.DirBytes` | includes/src/Plugin.php:112-118 | the reported total is at least the size of every entry other than index.php |
| `CacheDir.DirBytesIgnoresIndex` | includes/src/Plugin.php:115 | changing, adding or removing index.php leaves the reported total unchanged |
| `CacheDir.SumSizesRemove` | includes/src/Plugin.php:114-118 | the size total does not depend on the order in which entries are visited |
| `CacheDir.SumSizesSubset` | includes/src/Plugin.php:114-118 | summing a subset of the entries, with the same sizes, never gives more |
| `CacheDir.SumSizesZero` | includes/src/Plugin.php:112-118 | the total is zero exactly when every counted entry is empty |
| `CacheDir.SweepNeverGrows` | includes/src/Plugin.php:781-782 | after a sweep the reported directory size is no larger |
| `SizeFormat.HasPointZeroAt` | includes/src/Plugin.php:152 | the ".0" test holds exactly when some '.' is directly followed by '0' |
| `SizeFormat.StripSpaceAndB` | includes/src/Plugin.php:155 | the result keeps exactly the characters other than ' ' and 'B', and is no longer than the input |
| `SizeFormat.StripOne` | includes/src/Plugin.php:155 | a single character is dropped exactly when it is ' ' or 'B', and kept otherwise |
| `SizeFormat.StripConcat` | includes/src/Plugin.php:155 | stripping a concatenation is the concatenation of the stripped parts, so the remaining characters keep their order and their count |
| `SizeFormat.StripClean` | includes/src/Plugin.php:155 | a string without ' ' and 'B' is returned unchanged |
| `SizeFormat.NormalizeSize` | includes/src/Plugin.php:148-158 | the result has no space and no 'B'; it is the stripped no-decimal rendering when the one-decimal rendering contains ".0", and the stripped one-decimal rendering otherwise |
| `SizeFormat.NormalizeKeepsCleanRendering` | includes/src/Plugin.php:151-155 | a one-decimal rendering with no ".0", no space and no 'B' is returned exactly as rendered |
| `SizeFormat.FourMebibytes` | includes/src/Plugin.php:150-157 | 4194304 bytes rendered "4.0 MB" / "4 MB" normalize to "4M" |
| `SizeFormat.KeepsDecimalExample` | includes/src/Plugin.php:150-157 | 4500000 bytes rendered "4.3 MB" normalize to "4.3M" |
| `LogTail.TrimEnd` | includes/src/Plugin.php:572 | the result is a prefix of the input, ends in a non-trim character, and only trim characters were cut |
| `LogTail.TrimStart` | includes/src/Plugin.php:572 | the result is a suffix of the input, starts with a non-trim character, and only trim characters were cut |
| `LogTail.Trim` | includes/src/Plugin.php:572 | no trim character at either end, and no longer than the input |
| `LogTail.TrimAllBlank` | includes/src/Plugin.php:572 | the trimmed line is empty exactly when the line is all trim characters |
| `LogTail.TrimIdempotent` | includes/src/Plugin.php:572 | trimming a trimmed line changes nothing |
| `LogTail.IsBlank` | includes/src/Plugin.php:573 | PHP's empty() holds only for strings of at most one character, and for a single character exactly when it is '0' |
| `LogTail.Tail` | includes/src/Plugin.php:571 | the last min(limit, length) lines of the log |
| `LogTail.KeptLines` | includes/src/Plugin.php:571-577 | at most as many lines come out as go in |
| `LogTail.KeptLinesClean` | includes/src/Plugin.php:572-576 | every line that comes out is trimmed and not empty() in PHP's sense |
| `LogTail.KeptLinesSound` | includes/src/Plugin.php:571-577 | every line that comes out is the trimmed form of an input line |
| `LogTail.KeptLinesComplete` | includes/src/Plugin.php:571-577 | every input line not empty() after trimming comes out, trimmed |
| `LogTail.KeptLinesOne` | includes/src/Plugin.php:572-575 | a single line comes out trimmed, or not at all when it is empty() after trimming |
| `LogTail.KeptLinesConcat` | includes/src/Plugin.php:571-577 | the filter of a concatenation is the concatenation of the filters, so lines keep their order and repeated lines are all kept |
| `LogTail.KeptLinesStep` | includes/src/Plugin.php:571-577 | reading one more line extends the output by that line trimmed, unless it is empty() after trimming |
| `ActivePlugins.FirstIndex` | includes/src/Plugin.php:590 | the index of the first occurrence of the hook |
| `ActivePlugins.MoveToFront` | includes/src/Plugin.php:588-593 | same length and same multiset of entries; the hook is first when present; the list is unchanged when the hook is absent or already first |
| `ActivePlugins.MoveToFrontShape` | includes/src/Plugin.php:589-591 | hook at position 0, entries before its first occurrence shifted right by one, entries after it in place |
| `ActivePlugins.MoveToFrontIdempotent` | includes/src/Plugin.php:589 | reordering again changes nothing |
| `ActivePlugins.WithoutHook` | includes/src/Plugin.php:590-591 | reference view of the list without the hook: holds exactly the entries other than the hook |
| `ActivePlugins.MoveToFrontKeepsOthersInOrder` | includes/src/Plugin.php:590-591 | with the hook removed, the list before and after the reorder is the same, so every other entry keeps its relative order |
| `ActivePlugins.Search` | includes/src/Plugin.php:589-590 | found iff the hook is in the list, and then the index is its first occurrence |
| `AdminMessages.ActionName` | includes/src/Plugin.php:24-30 | every action name carries the "docket-" prefix |
| `AdminMessages.ParseAction` | includes/src/Plugin.php:329 | a recognised value is exactly the name of the action returned; an unrecognised one names no action |
| `AdminMessages.ParseActionName` | includes/src/Plugin.php:24-30 | each of the five action names is recognised as its own action |
| `AdminMessages.ActionToken` | includes/src/Plugin.php:337-361 | every redirect token carries the "docket-" prefix and ends in "-failed" exactly when the action failed |
| `AdminMessages.ActionTokenInjective` | includes/src/Plugin.php:337-361 | distinct (action, outcome) pairs redirect with distinct tokens |
| `AdminMessages.SettingsNotice` | includes/src/Plugin.php:393-426 | an "updated" notice always has a text; among tokens with a text, the error ones are exactly those ending in "-failed" |
| `AdminMessages.TokenShowsOutcome` | includes/src/Plugin.php:393-426 | every redirect token shows a notice with a text, "updated" exactly when the action succeeded |
| `AdminMessages.UnknownTokenIsError` | includes/src/Plugin.php:393-426 | a token that no action produces gives an error notice with no text |
| `PluginModel.Plugin.constructor` | includes/src/Plugin.php:39-57 | the fixed configuration is recorded and no token has been seen |
| `PluginModel.Plugin.DropinInstall` | includes/src/Plugin.php:169-179 | false and no change without a writable content directory; otherwise the copy's result, the drop-in becomes the bundled file on success, and the status becomes 1 (2 when halted) |
| `PluginModel.Plugin.DropinUninstall` | includes/src/Plugin.php:181-189 | succeeds only when the drop-in exists, is writable and the unlink succeeds, and then removes it (status 0, or 2 when halted); false otherwise, with nothing deleted |
| `PluginModel.Plugin.DropinRemove` | includes/src/Plugin.php:191-197 | a drop-in that does not validate (a foreign Name) is never removed; a valid, writable one is removed when the unlink succeeds |
| `PluginModel.Plugin.EmptyLog` | includes/src/Plugin.php:557-564 | false and no change without a readable log; otherwise the unlink's result, removing the log on success |
| `PluginModel.Plugin.TailLog` | includes/src/Plugin.php:566-581 | the kept, trimmed lines of the last `limit` log lines, none without a log, at most `limit` of them |
| `PluginModel.Plugin.GetDirsize` | includes/src/Plugin.php:108-122 | the normalized total size of the cache entries other than index.php, or of 0 bytes when the directory is unreadable |
| `PluginModel.Plugin.GarbageCollector` | includes/src/Plugin.php:770-787 | the directory becomes its sweep at time `now`, or stays as it was when unreadable |
| `PluginModel.Plugin.ReorderActivePlugins` | includes/src/Plugin.php:585-596 | the option becomes the move-to-front of the old list |
| `PluginModel.Plugin.HandleAction` | includes/src/Plugin.php:317-381 | nothing for an unlisted action or a bad nonce; the flush token regardless of writability; otherwise, with a writable content directory, the action's effect and its outcome token (tab=log for the log action), and nothing without one; every redirect token has a notice text |
| `PluginModel.Plugin.ShowNotice` | includes/src/Plugin.php:390-427 | the token is remembered and its notice is the table's |

## Left out

- Hook, filter and admin-menu registration, notices HTML (including the "outdated drop-in"
  notice and its `version_compare`), style enqueueing and the AJAX preload action. These
  are host-API glue.
- The preload closure. It does non-blocking HTTP fetches with cookies and `usleep`, which is
  network I/O.
- The `register_tweaks` filters other than the `active_plugins` reorder. They are pure host
  configuration.
- The scheduler, `get_opcache_status`, `sanitize_rootpath`, `get_logsize` and the WP-CLI
  commands. They are foreign runtime calls, and the model keeps no file sizes for the log.
- The `DOCKET_CACHE_PATH === '/'` guard in `register_plugin_hooks`. It belongs to hook
  registration.
- `activate`, `deactivate` and the static `uninstall`. Apart from `dropin_remove`
  (modelled), they only flush the object cache and clear the scheduler.
- `wp_cache_flush`, the `do_action` notifications and translation. Only the flush's boolean
  result is modelled, as a parameter.
- The arithmetic of `size_format` and `wp_convert_hr_to_bytes` (float division, units,
  locale). `size_format` is a parameter, and the byte count is passed through unchanged.
- The `static $cache` memoisation in `plugin_data`. Headers are read from the current state
  on every call. Within one request the source would keep seeing the first headers it read.
- The `Files` helper class (`scandir`, `tail`, `copy`, `unlink`) is not part of this model.
  Its effects are assumed as follows:
  - `scandir` lists the cache directory's files, each once.
  - `tail` returns the last `limit` lines.
  - `copy` either makes the drop-in equal to the bundled file or leaves it untouched.
- PHP's loose `in_array`/`array_search` comparison. Plugin basenames are non-numeric
  strings, so it coincides with string equality. `active_plugins` arrays that are not lists
  (no key 0) are not modelled.
- `includes/vendor/composer/autoload_classmap.php`: a generated class-to-path table with no
  logic.
- PluginModel.Plugin.GarbageCollector: does not model `time()` advancing during the sweep
  (one `now` is used for every entry) or an unlink that fails. Every collectable entry is
  removed.
- PluginModel.Plugin.TailLog: takes the limit as a natural number, so a negative `(int)`
  limit is not modelled.
