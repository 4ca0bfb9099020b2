# slack_log_device, modelled in Dafny

slack_log_device is a Ruby log device that posts log lines to a Slack incoming webhook.
It has three parts:

- **The Formatter** turns one log call into the text of one chat message. The call carries a severity, a program name and a message, which is either a string or an exception. The result starts with a label such as `` *`ERROR`* (*app*): ``. Then comes the converted message or the exception's headline. Then a bulleted metadata block: request fields, user, machine, PID and extra entries. For exceptions, a fenced backtrace and the chain of causes follow. Everything is cut to 4000 characters. The message also carries the icon emoji configured for its severity.
- **Formatter::Message** is that text together with its normalised icon.
- **SlackLogDevice** buffers the stripped, non-blank lines written to it. It posts the buffer to the webhook as one newline-joined message, together with the channel and user name when those are set. It posts at once when auto flush is on, when the flush delay is zero, or when the buffer exceeds its byte budget. Otherwise a delayed flush is scheduled; each write cancels and reschedules it.

Modules:

- `wrappers.dfy`: `Option`, which stands for Ruby's nil, and `Result`, which stands for a raised error.
- `text.dfy`: the parts of Ruby's and ActiveSupport's string API the code relies on: `strip`, `blank?`, `presence`, `squish`, `join`, `upcase`, `downcase` and `bytesize`.
- `message.dfy`: `Formatter::Message`.
- `formatter.dfy`: the rendering as pure functions (`Render` and its pieces), and the `Formatter` class with its settings and setters. `Formatter.Call` allocates the `Message`.
- `device.dfy`: the setters' validation as functions, and the `SlackLogDevice` class.

In the device model, every webhook POST is appended to the `posts` field. The pending delayed flush is a flag, `timerPending`, and the `FireTimer` method is the timer thread waking up. The class invariant (`Valid`) ties the lines posted and the lines still buffered to a ghost record of every line written. Nothing is lost, duplicated or reordered. A non-empty buffer always has a flush scheduled.

## Model

| member | source | states |
|---|---|---|
| Formatter.AllSeveritiesComplete | lib/slack_log_device/formatter.rb:5-12 | the severity table lists every severity |
| Formatter.DefaultIconsValid | lib/slack_log_device/formatter.rb:5-12 | the default icon table has every severity, and each icon is trimmed |
| Formatter.SeverityNameCanonical | lib/slack_log_device/formatter.rb:5-12 | every severity name is trimmed and already upper case |
| Formatter.SeverityNameInjective | lib/slack_log_device/formatter.rb:5-12 | no two severities share a name |
| Formatter.Truncate | lib/slack_log_device/formatter.rb:169-174 | the result never exceeds the limit. Stripped text that fits comes back unchanged. Longer text is cut to exactly the limit, ending in "..." when the limit is at least 3 and cut bare below that. With a limit of at least 3, non-blank text stays trimmed |
| Formatter.TruncateIdempotent | lib/slack_log_device/formatter.rb:169-174 | truncating twice to the same limit (at least 3) is truncating once |
| Formatter.ConvertMessage | lib/slack_log_device/formatter.rb:111-113 | the converted message is empty or trimmed, whatever the converter returns |
| Formatter.PlainHeadlineShape | lib/slack_log_device/formatter.rb:32-43 | a text headline is the label followed by a space and the converted message. A blank message leaves the label alone. The headline is trimmed |
| Formatter.SpacedTail | lib/slack_log_device/formatter.rb:43 | the rstripped text clause is a space and the message, or nothing when the message is empty |
| Formatter.OccurredTail | lib/slack_log_device/formatter.rb:37 | the rstripped exception clause is `` A `Class` occurred: `` followed by the message, or ends at the colon when the message is empty |
| Formatter.ExceptionHeadlineShape | lib/slack_log_device/formatter.rb:32-37 | an exception headline is the label, then `` A `Class` occurred: `` and the message, with no trailing space when the message is blank. The headline is trimmed |
| Formatter.PresentLines | lib/slack_log_device/formatter.rb:138 | every kept line is a non-blank line of the backtrace, every non-blank line is kept, and nothing is kept exactly when every line is blank |
| Formatter.PresentLinesAppend | lib/slack_log_device/formatter.rb:138 | filtering a concatenation filters each part and keeps them in order, so the kept lines stay in the backtrace's order |
| Formatter.PresentLinesOne | lib/slack_log_device/formatter.rb:138 | a single line is kept exactly when it is not blank |
| Formatter.BacktraceText | lib/slack_log_device/formatter.rb:140-145 | with a negative limit, or when every line fits the limit, all the lines joined by newlines. Otherwise the first limit lines joined by newlines, then a line "..." |
| Formatter.BacktraceTextNotBlank | lib/slack_log_device/formatter.rb:140-145 | a non-empty backtrace with a non-zero line limit yields non-blank text |
| Formatter.FormatBacktrace | lib/slack_log_device/formatter.rb:136-147 | there is no block exactly when the limit is 0, fewer than 7 characters are left, or every line is blank. Otherwise the block fits the space left, is trimmed, and is the BacktraceText of the present lines, truncated to the space left minus 6 and fenced with three backticks at both ends |
| Formatter.LookupOverridden | lib/slack_log_device/formatter.rb:155 | keys of the default metadata keep their place and take the extra value when there is one |
| Formatter.LookupAdditions | lib/slack_log_device/formatter.rb:155 | extra keys that are new to the defaults are appended, with their own values |
| Formatter.MergeLookup | lib/slack_log_device/formatter.rb:155 | Hash#merge: a key's value comes from the extra metadata when present there, from the defaults otherwise, and the defaults' keys come first in order |
| Formatter.DefaultMetadata | lib/slack_log_device/formatter.rb:115-134 | nothing when disabled. Otherwise Method, URL, Remote address and User-Agent (only with a request), then User, Machine and PID, every value a string |
| Formatter.QuoteValues | lib/slack_log_device/formatter.rb:129-132 | every entry keeps its name and place, and its value is quoted: stripped between backticks when present, left as it is when blank |
| Formatter.DefaultMetadataValues | lib/slack_log_device/formatter.rb:123-131 | the last three default entries are User, Machine and PID, holding the quoted user, host name and process id |
| Formatter.DefaultMetadataRequestValues | lib/slack_log_device/formatter.rb:117-131 | with a request, the seven entries open with Method, URL, Remote address and User-Agent, holding the request's quoted method, URL, remote address and user agent |
| Formatter.MetadataContext | lib/slack_log_device/formatter.rb:151-154 | computed values receive the exception exactly when the message is one, and the request when there is one |
| Formatter.MetadataLines | lib/slack_log_device/formatter.rb:155-158 | there are never more lines than entries |
| Formatter.MetadataLinesFacts | lib/slack_log_device/formatter.rb:155-158 | every line starts with the bullet, and there is none exactly when every value is blank |
| Formatter.MetadataLinesAppend | lib/slack_log_device/formatter.rb:155-158 | the lines of a concatenation of entries are the lines of each part, in order |
| Formatter.MetadataLinesOne | lib/slack_log_device/formatter.rb:156-157 | one entry gives exactly one line, the bullet, the stripped name in bold and the stripped value, when its resolved value is not blank, and none otherwise |
| Formatter.MetadataLinesShowEntry | lib/slack_log_device/formatter.rb:155-158 | every entry whose resolved value is not blank has its line among the lines |
| Formatter.FormatMetadata | lib/slack_log_device/formatter.rb:149-161 | there is no block exactly when fewer than 11 characters are left or no value is present. Otherwise the block fits the space left, is trimmed, and is the metadata lines of the merged default and extra entries, joined by newlines and truncated to the space left |
| Formatter.AppendBlock | lib/slack_log_device/formatter.rb:106-109 | a block is appended after a blank line, and an absent block leaves the text alone |
| Formatter.AppendMetadata | lib/slack_log_device/formatter.rb:106-109 | the text unchanged when FormatMetadata, given what is left of 4000 after the two separator characters, yields nothing; otherwise the text, a blank line and that metadata block. The limit is kept and trimmed text stays trimmed |
| Formatter.AppendExceptionBacktrace | lib/slack_log_device/formatter.rb:91-94 | the text unchanged when FormatBacktrace, given what is left of 4000 after the two separator characters, yields nothing; otherwise the text, a blank line and that fenced backtrace block. The limit is kept and trimmed text stays trimmed |
| Formatter.TruncateKeepsPrefix | lib/slack_log_device/formatter.rb:101 | truncating text after a trimmed prefix that leaves room for the ellipsis keeps the prefix |
| Formatter.CauseSection | lib/slack_log_device/formatter.rb:100-101 | the text, the "Caused by" label and the cause's message truncated to 4000 characters, then the cause's backtrace when it fits. The result is within the limit and keeps a trimmed text in front of it |
| Formatter.CauseHeadingKeepsText | lib/slack_log_device/formatter.rb:100 | truncating the cause's heading keeps a trimmed text in front of it, and the result stays trimmed |
| Formatter.CauseLabelCut | lib/slack_log_device/formatter.rb:99-101 | when the text and the label make exactly 4000 characters, the truncation cuts into the label itself: the result is their first 3997 characters and "...", and no backtrace follows |
| Formatter.AppendExceptionCause | lib/slack_log_device/formatter.rb:96-104 | no cause, or a cause whose label does not fit in 4000 characters, leaves the text as it is. Otherwise the cause's section, then that cause's own causes. The chain never pushes the text past 4000 characters and never changes the trimmed text before it |
| Formatter.ExceptionSections | lib/slack_log_device/formatter.rb:38-41 | metadata, backtrace and causes keep the text within 4000 characters |
| Formatter.ExceptionSectionsKeepHeadline | lib/slack_log_device/formatter.rb:38-41 | the sections keep the headline as a prefix, and the text stays trimmed |
| Formatter.ExceptionText | lib/slack_log_device/formatter.rb:35-41 | an exception's text fits the limit, is trimmed, and opens with its truncated headline |
| Formatter.Render | lib/slack_log_device/formatter.rb:31-46 | the text of a message never exceeds 4000 characters, and an exception's text opens with its headline |
| Formatter.RenderPlain | lib/slack_log_device/formatter.rb:42-46 | a text message opens with its headline when that fits. A longer headline is cut to 3997 characters plus "...". The text is trimmed |
| Formatter.SeverityNamed | lib/slack_log_device/formatter.rb:165 | a severity is found by its name exactly when it has that name |
| Formatter.SeverityOf | lib/slack_log_device/formatter.rb:165 | a name is a key of the icon table exactly when some severity has that name |
| Formatter.ParseSeverity | lib/slack_log_device/formatter.rb:163-167 | success yields the severity whose name is the stripped, upper-cased value. Failure means no severity has that name, and the error carries the value |
| Formatter.ParseSeverityOfName | lib/slack_log_device/formatter.rb:163-167 | a value whose stripped, upper-cased form is a severity's name parses to that severity |
| Formatter.ParseSeverityNames | lib/slack_log_device/formatter.rb:163-167 | each severity is parsed from its name, its lower-case name and its name padded with whitespace |
| Formatter.ParseSeverityIgnoresCase | lib/slack_log_device/formatter.rb:164 | lower-casing a value changes neither whether it parses nor what it parses to |
| Formatter.IconValueIsNormalized | lib/slack_log_device/formatter.rb:78 | the formatter's icon normalisation is the message's, yields a trimmed icon or nil, and normalising again changes nothing |
| Formatter.ValidIconsUpdate | lib/slack_log_device/formatter.rb:78 | storing a normalised icon keeps every severity's icon trimmed |
| Formatter.ApplyIconEmojis | lib/slack_log_device/formatter.rb:76-81 | applying icon pairs keeps the table valid |
| Formatter.ApplyIconEmojisFails | lib/slack_log_device/formatter.rb:76-81 | the update succeeds exactly when every pair's key names a severity, and raises otherwise |
| Formatter.ApplyIconEmojisStep | lib/slack_log_device/formatter.rb:77-78 | one pair at a time: a key that names no severity stops with its error, and any other pair sets that severity's icon before the rest are applied |
| Formatter.UpdateIcons | lib/slack_log_device/formatter.rb:76-81 | the loop over the pairs ends with the table and error of the update, applied in order |
| Formatter.ApplyIconEmojisFirstError | lib/slack_log_device/formatter.rb:77-78 | the error raised names the first pair that is not a severity |
| Formatter.ApplyIconEmojisSnoc | lib/slack_log_device/formatter.rb:77-78 | each pair overwrites its severity's icon, so a later pair wins over an earlier one |
| Formatter.ApplyIconEmojisUntouched | lib/slack_log_device/formatter.rb:77-78 | severities no pair names keep their icon |
| Formatter.ParseMaxBacktraceLines | lib/slack_log_device/formatter.rb:83-87 | any integer of -1 or more is accepted unchanged. Anything else is refused, with the value in the error |
| Formatter.UniformIcons | lib/slack_log_device/formatter.rb:65-70 | every severity gets the same icon |
| Formatter.Formatter.Init | lib/slack_log_device/formatter.rb:20-24 | defaults: default metadata on, no extra metadata, 10 backtrace lines, the default icon table |
| Formatter.Formatter.SetDisableDefaultMetadata | lib/slack_log_device/formatter.rb:49-51 | only a present value disables the default metadata, and the other settings are unchanged |
| Formatter.Formatter.SetExtraMetadata | lib/slack_log_device/formatter.rb:57-59 | nil means no extra metadata, and the other settings are unchanged |
| Formatter.Formatter.SetMaxBacktraceLines | lib/slack_log_device/formatter.rb:83-87 | the parsed value is stored, or the error is returned and nothing changes |
| Formatter.Formatter.IconEmoji | lib/slack_log_device/formatter.rb:61-63 | a known severity yields its icon, trimmed or nil. An unknown one is an error |
| Formatter.Formatter.SetIconEmoji | lib/slack_log_device/formatter.rb:65-70 | every severity's icon becomes the stripped value, or nil when the value is blank |
| Formatter.Formatter.SetAllIcons | lib/slack_log_device/formatter.rb:67-69 | every one of the six severities gets the given icon, the table stays valid, and the other settings stay as they were |
| Formatter.Formatter.SetIconEmojis | lib/slack_log_device/formatter.rb:76-81 | the icon table and the error are those of applying the pairs in order, and the table stays valid |
| Formatter.Formatter.Call | lib/slack_log_device/formatter.rb:31-47 | an unknown severity is an error. Otherwise a new Message with the rendered text and the severity's icon |
| Formatter.NewFormatter | lib/slack_log_device/formatter.rb:18-29 | the options are applied in the constructor's order. The constructor fails exactly when the backtrace limit or an icon pair is invalid. It fails with the backtrace limit's error when that limit is invalid, and otherwise with the error of the first invalid icon pair. The resulting settings are stated field by field |
| FormatterMessage.NormalizeIcon | lib/slack_log_device/formatter/message.rb:14-16 | nil for nil or a blank value, the stripped value otherwise, which is trimmed |
| FormatterMessage.NormalizeIconIdempotent | lib/slack_log_device/formatter/message.rb:14-16 | normalising an icon twice is normalising it once |
| FormatterMessage.Message.constructor | lib/slack_log_device/formatter/message.rb:9-12 | the message is the text it was given, and its icon is normalised |
| FormatterMessage.Message.SetIconEmoji | lib/slack_log_device/formatter/message.rb:14-16 | the stored icon is the normalised value |
| Device.ParseFlushDelay | lib/slack_log_device.rb:79-83 | any integer of 0 or more is accepted. Anything else is refused, with the value in the error |
| Device.ParseMaxBufferSize | lib/slack_log_device.rb:85-89 | any integer of 0 or more is accepted. Anything else is refused, with the value in the error |
| Device.ParseTimeout | lib/slack_log_device.rb:91-95 | only a positive integer is accepted. Anything else is refused, with the value in the error |
| Device.ParseChannelAsWritten | lib/slack_log_device.rb:47-51 | as written: a value is accepted exactly when it is blank or one of its lines matches the pattern. An accepted value is stored as its presence (nil when blank), and a refused one carries the value in the error |
| Device.ChannelRegexAcceptsOtherLines | lib/slack_log_device.rb:49 | a two-line value with a channel on its first line passes the check as written, although it is no channel |
| Device.ChannelRegexWithoutNewline | lib/slack_log_device.rb:49 | on values without a newline, the pattern accepts exactly the channel names |
| Device.ParseChannel | lib/slack_log_device.rb:47-51 | a blank value clears the channel. A non-blank value is kept only when the whole value is a channel name (# or @, then 1 to 21 of a-z, 0-9, _ and -). Otherwise it is refused, with the value in the error |
| Device.ParseChannelCorrected | lib/slack_log_device.rb:47-51 | an accepted channel holds no whitespace, and the corrected check agrees with the written one on every value without a newline |
| Device.NormalizeUsername | lib/slack_log_device.rb:97-99 | nil exactly for a blank value |
| Device.NormalizeUsernameSquished | lib/slack_log_device.rb:97-99 | a present user name is trimmed and single-spaced, and keeps every character of the value that is not whitespace, in order |
| Text.SquishNonSpace | lib/slack_log_device.rb:98 | squish keeps every character that is not whitespace, in order |
| Text.SquishSingleSpaced | lib/slack_log_device.rb:98 | every whitespace left by squish is a single space between two other characters |
| Text.SquishSeparated | lib/slack_log_device.rb:98 | two trimmed pieces separated by any run of whitespace squish to the two pieces squished and joined by one space |
| Text.SquishIdempotent | lib/slack_log_device.rb:98 | squishing twice is squishing once |
| Text.CollapseSpacesAppend | lib/slack_log_device.rb:98 | collapsing a concatenation collapses the first part, then the second with the whitespace run the first part leaves open |
| Device.ParseWebhookUrl | lib/slack_log_device.rb:101-106 | a blank value is missing. A non-blank value is accepted, as given, exactly when it is an http or https URL. Otherwise it is invalid, with the value in the error |
| Device.ParseWebhookUrlAcceptsHttp | lib/slack_log_device.rb:101-106 | an http URL is accepted |
| Device.ParseWebhookUrlAcceptsHttps | lib/slack_log_device.rb:101-106 | an https URL is accepted |
| Device.ParseWebhookUrlRejects | lib/slack_log_device.rb:101-106 | "foo" and an ftp URL are invalid, and nil is missing |
| Device.FlushDueMonotone | lib/slack_log_device.rb:75-77 | once a flush is due, buffering one more line keeps it due |
| Device.FlushDueAtBudget | lib/slack_log_device.rb:75-77 | the byte budget is strict: with a budget of 3, a buffer holding "abc" (exactly 3 bytes) is not due |
| Device.FlushDueOverBudget | lib/slack_log_device.rb:75-77 | the joining newlines count against the budget: "abc" and "d" make 5 bytes, so with a budget of 3 the flush is due |
| Device.SlackLogDevice.Init | lib/slack_log_device.rb:25-33 | defaults: empty buffer, no posts, no channel, a 1-second delay, a 128 KiB budget, a 5-second timeout |
| Device.SlackLogDevice.Flush | lib/slack_log_device.rb:57-73 | an empty buffer posts nothing. Otherwise one POST of the buffered lines joined by newlines, with the channel, user name, URL and timeout, and the buffer is emptied. The invariant is kept |
| Device.SlackLogDevice.Write | lib/slack_log_device.rb:108-124 | a blank line changes nothing. A non-blank line is stripped and recorded as written. When a flush is due it goes out at once with the buffer; otherwise it is buffered and a flush is scheduled. The invariant is kept |
| Device.SlackLogDevice.FireTimer | lib/slack_log_device.rb:118-121 | the delayed flush posts the buffer, if any, leaves nothing scheduled, and leaves every setting unchanged |
| Device.SlackLogDevice.SetAutoFlush | lib/slack_log_device.rb:43-45 | only a present value turns auto flush on |
| Device.SlackLogDevice.SetChannel | lib/slack_log_device.rb:47-51 | the corrected parse is stored, or the error is returned and nothing changes |
| Device.SlackLogDevice.SetFlushDelay | lib/slack_log_device.rb:79-83 | the parsed delay is stored, or the error is returned and nothing changes |
| Device.SlackLogDevice.SetMaxBufferSize | lib/slack_log_device.rb:85-89 | the parsed budget is stored, or the error is returned and nothing changes |
| Device.SlackLogDevice.SetTimeout | lib/slack_log_device.rb:91-95 | the parsed timeout is stored, or the error is returned and nothing changes |
| Device.SlackLogDevice.SetUsername | lib/slack_log_device.rb:97-99 | the squished user name, or nil, is stored |
| Device.SlackLogDevice.SetWebhookUrl | lib/slack_log_device.rb:101-106 | the parsed URL is stored, or the error is returned and nothing changes |
| Device.FirstConfigError | lib/slack_log_device.rb:25-37 | the first invalid option in the constructor's order: the channel, then the flush delay, the buffer budget, the timeout and the webhook URL. There is none exactly when every option is accepted |
| Device.NewDevice | lib/slack_log_device.rb:25-37 | the options are applied in the constructor's order. The constructor fails exactly when an option is invalid, and then with the error of the first invalid one. The resulting settings are stated field by field |

## Findings

| source | as written | input that shows it | evidently intended | confidence | as-written member | corrected member |
|---|---|---|---|---|---|---|
| lib/slack_log_device.rb:49 | the channel check uses `^` and `$`, which match at line boundaries in Ruby, so any value with one line that is a channel name passes | "#general\nnot a channel!" is accepted and posted as the channel | the whole value must be a channel name, as the error message describes | high, not executed | Device.ChannelRegexAcceptsOtherLines | Device.ParseChannel |

## Left out

- Whitespace and case: `strip`, `blank?`, `squish`, `upcase` and `downcase` are modelled on ASCII whitespace (space, tab, newline, vertical tab, form feed, carriage return) and ASCII letters. Ruby's `rstrip` also drops NUL, ActiveSupport's `blank?` and `squish` recognise Unicode whitespace, and `upcase`/`downcase` map non-ASCII letters.
- Character encoding: the `encode('UTF-8')` calls are left out, and strings are sequences of Unicode scalar values.
- Integer parsing: `Integer(value)` accepts strings and floats. The numeric setters take an integer, or nil for anything `Integer` would refuse.
- Device.ParseWebhookUrl: `URI()` is approximated by "starts with http: or https: in any case, and has no whitespace". The URL is stored as given, without URI's own normalisation of `to_s`.
- HTTP, JSON and standard error: a flush appends the POST it would send to `posts`. The JSON encoding, the network and the printing of errors rescued from the POST are left out.
- Threads and the mutex: the delayed flush thread is the `timerPending` flag and the `FireTimer` method. Writes interleaving with a running flush are not modelled.
- The `datetime` parameter of `call` is unused by the code and left out.
- The legacy `SlackLogDevice::FORMATTER` lambda (slack_log_device.rb:8-20) is not part of this model, nor are `close` (which does nothing), `auto_flush?`, or the readers.
- `assert_valid_keys`: options are a record, so unknown keys cannot be passed.
- The icon table's `freeze` in the `icon_emojis` reader is not modelled.
- Metadata: extra metadata is an association list. Repeated names (impossible in a Ruby hash) are looked up by their first occurrence. Values are strings or functions of the context that return strings. An extra value of another type (a number, say) makes `value.encode` at formatter.rb:157 raise NoMethodError; that error is not modelled. User, machine name and process id are parameters (`Host`), and the request of the current thread is a parameter.
- `icon_emojis: nil` (which raises NoMethodError in Ruby) and `present?` on non-boolean values of `auto_flush` and `disable_default_metadata` are not modelled. Those options are booleans.
- Exception backtraces are sequences of strings: a nil backtrace is the empty sequence.
- The metadata bullet is the single character U+2022. The source file shows it as mis-encoded text at formatter.rb:157.
- The Rails glue (debug_exceptions.rb and set_request_in_thread.rb) is not part of this model.

Where the code and its documentation differ, the model follows the code:

- The causes of an exception get their headline, backtrace and further causes, but no metadata block.
- The fit check for a cause measures only the "Caused by" label, so the truncation that follows may cut into the cause's own message, and even into the label itself (Formatter.CauseLabelCut).
