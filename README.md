# AudioMoth configuration helpers in Dafny

This project models the helpers that the AudioMoth configuration tool uses
when it talks to the recorder over USB HID:

- the four one-byte command messages (configuration write `0x01`, restore
  `0x04`, read `0x05`, persist `0x06`);
- `_validate_parameter`, which decides whether a value may be written to a
  configuration parameter. It rejects any value that is not an integer. Then
  it dispatches on the parameter name. `gain` must be one of 0..4.
  `samplerate` must be one of the eight supported rates. `lower_filter_freq` and
  `higher_filter_freq` must be multiples of 100 and at most half the current
  sample rate. Every other name is accepted.

`audiomoth/utils.py` and `src/utils.py` are identical copies. Lines 5-8 and 11-41
of both hold the modelled code. The table cites the `audiomoth/` copy; every
citation applies to `src/utils.py` at the same lines.

Everything lives in the module `Utils` (`utils.dfy`). `Validate` follows the
source's `match`. `Acceptable` restates the device's constraints in separate
terms: a range for the gain, a set of rates, "some k with v = 100·k", and
"2·v ≤ sr" (for a negative rate, "2·v ≤ sr + 1", which is what truncation
toward zero gives). The lemma `ValidateMatchesSpec` proves the two agree on every
input. A raised `ValueError` is modelled as `Fail(e)`, where `e` says which
check refused the value. Returning normally is `Pass`.

`int(sr / 2)` truncates toward zero. `TruncHalf` models that truncation for
every integer `sr`, including negative ones, so no lemma needs `sr >= 0`.
Python's `value % 100` with a positive divisor agrees with Dafny's `%`. So a
negative multiple of 100, such as -100, passes the divisibility test, as it
does in the source.

## Model

| member | source | states |
|---|---|---|
| `Utils.Tag` | audiomoth/utils.py:5-8 | every command tag is one of 0x01, 0x04, 0x05, 0x06 |
| `Utils.Message` | audiomoth/utils.py:5-8 | each command message is exactly one byte, and that byte is the command's tag |
| `Utils.CommandOfTag` | audiomoth/utils.py:5-8 | an auxiliary inverse of the tag table (the source itself never decodes a tag byte), used to state that the tags are injective: a byte names a command exactly when it is one of the four tags |
| `Utils.TagRoundTrip` | audiomoth/utils.py:5-8 | a tag reads back as its own command, and a byte reads back as a command only if it is that command's tag |
| `Utils.MessagesDistinct` | audiomoth/utils.py:5-8 | two commands have the same message only if they are the same command, so the four messages are pairwise distinct |
| `Utils.TruncHalf` | audiomoth/utils.py:38 | `int(sr / 2)` is half the rate truncated toward zero: for sr ≥ 0, 2h ≤ sr < 2h+2; for sr < 0, 2h−2 < sr ≤ 2h |
| `Utils.Validate` | audiomoth/utils.py:11-41 | a non-integer is refused with the type error whatever the name and rate; a refused integer never gets the type error but its own rule's range error (`GainOutOfRange`, `SamplerateNotSupported`, or `FilterOutOfRange` with value and rate), so `gain` = 7 is a gain range error; an integer can be refused only for the four checked names |
| `Utils.ValidateMatchesSpec` | audiomoth/utils.py:25-41 | the validator accepts exactly when the value is an integer and meets the rule of its name: gain in 0..4, samplerate in the supported set, filters a multiple of 100 and at most half the rate |
| `Utils.MultipleOfHundredIff` | audiomoth/utils.py:38 | the test `value % 100 == 0` holds exactly for the multiples of 100, negative ones included |
| `Utils.AtMostHalfIff` | audiomoth/utils.py:38 | `value <= int(sr / 2)` holds exactly when 2·value ≤ sr (or 2·value ≤ sr + 1 for a negative rate) |
| `Utils.NonIntegerRejected` | audiomoth/utils.py:25-26 | a non-integer value is refused for every parameter name and every sample rate |
| `Utils.GainRule` | audiomoth/utils.py:29-31 | `gain` is accepted iff the value is between 0 and 4 |
| `Utils.SamplerateRule` | audiomoth/utils.py:32-36 | `samplerate` is accepted iff the value is one of 8000, 16000, 32000, 48000, 96000, 192000, 250000, 384000 |
| `Utils.FilterRule` | audiomoth/utils.py:37-41 | either filter frequency is accepted iff it is a multiple of 100 and at most half the rate; both names always give the same verdict |
| `Utils.UncheckedNameAccepted` | audiomoth/utils.py:28-41 | any other name accepts every integer, because the `match` has no default arm |
| `Utils.SamplerateOnlyAffectsFilters` | audiomoth/utils.py:20 | for every name other than the two filter names, changing the sample rate never changes the verdict |
| `Utils.FilterDependsOnSamplerate` | audiomoth/utils.py:37-41 | for a filter name the rate does matter: 4500 Hz is refused at 8000 Hz and accepted at 16000 Hz |
| `Utils.TruncHalfMonotone` | audiomoth/utils.py:38 | the truncated half never decreases as the sample rate grows |
| `Utils.AcceptanceMonotoneInSamplerate` | audiomoth/utils.py:37-38 | a value accepted under a sample rate stays accepted under every larger one, for every parameter name |

## Left out

- Python treats `bool` as a subclass of `int`, so `True` and `False` pass the type check as 1 and 0. The model has only integers and "not an integer".
- Utils.Validate: the source computes `sr / 2` in floating point before `int` truncates it, and the model uses exact integer halving (`Utils.TruncHalf`) instead. Two consequences are not captured. For rates of magnitude above 2^53 the float quotient can round, so the source's bound can differ from the exact one. For rates of magnitude around 2^1025 and above, the division raises `OverflowError` (not a `ValueError`) whenever the value is a multiple of 100 and a filter name is checked; the model returns `Pass` or `Fail` there instead of an exception.
- The text of each `ValueError` message is not modelled. The `ValidationError` constructor records which check failed and the values it names.
- `ColoredFormatter`, `LoggingFilter` and `_setup_logging` (audiomoth/utils.py:44-98) are not modelled. They configure logging output and files, which is I/O.
- `_parse_args` (audiomoth/utils.py:101-188) is not modelled. It declares the command line through `argparse`.
- The command dispatch in `audiomoth/audiomoth.py` is not modelled. It only routes parsed arguments to the device functions.
- The device locator, the 18-byte configuration codec and the read/merge/write functions (`get_audiomoth_device`, `get_config`, `set_config`, `persist_config`, `restore_config`) are not part of this model. Their source is not among the modelled files. The HID transport they drive is foreign I/O.
