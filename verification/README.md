# UPS e-paper status display — Dafny model

The program polls a NUT (Network UPS Tools) daemon for four UPS variables
(`battery.charge`, `battery.runtime`, `ups.load`, `ups.status`) and draws them
on a small e-paper panel: a battery icon with filled segments on the left and
five text lines on the right. This project models its pure logic:

- `Status` — the twelve-member `UPSStatus` enum, its string values, and the
  conversion `UPSStatus(code)` that raises `ValueError` for any other string.
  The contracts relate each value to the space-separated NUT flags it is
  made of (`OL`, `OB`, `LB`, `CHRG`, `DISCHRG`, `BOOST`, `RB`, `BYPASS`).
- `Classify` — `ups_online_status`, `ups_charge_status` and
  `ups_other_status`, the three facets derived from a status. Each facet is
  stated against the NUT flags: online exactly when the first flag is `OL`,
  charging exactly when a `CHRG` flag is present, and so on.
- `Text` — the status line, the battery line, the remaining-runtime line with
  Python's round-half-to-even of `seconds / 60`, and Python's `str` of an
  integer, with a parser that reads it back.
- `BatteryIcon` — the icon's constants, the contact tab, the casing, and the
  segment loop, as a method that mirrors the loop and a closed-form count.
- `Display` — one `update_display` call: the frame's shapes and text items,
  or the `ValueError` that aborts the update.
- `Wrappers` — `Option` and `Result`.

Telemetry arrives as a value: the charge and load as the strings the daemon
reported, the charge also as the value the charge string denotes, as an
exact real, and the runtime as a whole number of seconds. The charge string
and the charge number are two independent fields; the model does not tie
one to the other. Drawing is returned as data
(boxes, corner flags, fill or outline, text positions), not rasterised.

Three behaviours of the code are easy to misread:

- An unknown status string is never classified: `UPSStatus(code)` raises
  `ValueError`, which the `except IOError` around the main loop does not
  catch. `Display.Render` returns `Failure(ValueError(code))`.
- The segment loop runs while `i < charge / 100 * 5 - 1`. It draws one
  segment fewer than `floor(charge / 20)` at every positive multiple of 20%,
  and never draws the fifth segment for a charge of at most 100% (75% draws
  three, 100% draws four).
- The initial "N/A" values are overwritten before use. A missing variable
  raises from the dictionary lookup instead of showing "N/A".

## Model

| member | source | states |
|---|---|---|
| Status.Value | nut.py:25-37 | each member's value is the NUT status string of the enum declaration |
| Status.ValueWords | nut.py:25-37 | each value splits into the NUT flags it names, e.g. `OL DISCHRG LB` into `OL`, `DISCHRG`, `LB` |
| Status.MembersComplete | nut.py:25-37 | the member list holds all twelve members, each once |
| Status.ValueInjective | nut.py:25-37 | no two members share a value, so the value identifies the member |
| Status.ValueFirstChar | nut.py:25-37 | every value starts with `O`, `R` or `B` and has at least two characters |
| Status.Lookup | nut.py:158 | the value lookup finds a listed member with that value, or reports that none of the listed members has it |
| Status.Parse | nut.py:158 | `UPSStatus(code)` succeeds exactly when some member has value `code`, returns that member, and otherwise raises `ValueError` for `code` |
| Status.ParseValue | nut.py:25-37 | converting a member's value gives back that member |
| Status.WordsOfWord | nut.py:25-37 | a string without spaces is a single flag |
| Status.WordsSplit | nut.py:25-37 | a flag followed by a space contributes that flag and the rest's flags |
| Classify.OnlineStatusOf | nut.py:58-67 | online exactly when the first NUT flag is `OL`, offline exactly when it is `OB`, unknown otherwise |
| Classify.ChargeStatusOf | nut.py:70-77 | charging exactly when a `CHRG` flag is present, discharging exactly when a `DISCHRG` flag is present |
| Classify.OtherStatusOf | nut.py:80-88 | low voltage exactly when a `BOOST` flag is present, low battery exactly when an `LB` flag is present |
| Classify.Classify | nut.py:158-161 | the facet triple reads the NUT flags: online for a first flag `OL`, offline for `OB`; charging for `CHRG`, discharging for `DISCHRG`; low voltage for `BOOST`, low battery for `LB` |
| Classify.OnlineTable | nut.py:58-67 | the seven `OL` members are online, the three `OB` members offline, `RB` and `BYPASS` unknown |
| Classify.ChargeTable | nut.py:70-77 | exactly `OL CHRG` and `OL CHRG LB` are charging; exactly the four `DISCHRG` members are discharging |
| Classify.OtherTable | nut.py:80-88 | exactly `OL BOOST` is low voltage; exactly the five `LB` members are low battery |
| Classify.ChargingImpliesOnline | nut.py:58-77 | a charging status is online; an offline status is never charging, and is discharging unless low on battery |
| Classify.FacetsOfStatusString | nut.py:158-161 | `OL DISCHRG LB` converts and is online, discharging and low battery at once |
| Text.NatToString | nut.py:102 | the decimal rendering is non-empty, all digits, without a leading zero |
| Text.NatToStringRoundTrip | nut.py:102 | the digits of `n` denote `n` |
| Text.IntToString | nut.py:102 | `str` of an integer is canonical (no leading zero, no "-0") and parses back to the same integer, starting with a digit exactly when it is non-negative |
| Text.LeadingDigitPositive | nut.py:102 | digits starting with a non-zero digit denote a positive number |
| Text.NatToStringOfDigits | nut.py:102 | digits without a leading zero are what the decimal rendering writes for their value |
| Text.CanonicalIsIntToString | nut.py:102 | every canonical integer string is `str` of the integer it denotes |
| Text.CanonicalUnique | nut.py:102 | two canonical strings denoting the same integer are equal, so `str` is the only canonical spelling |
| Text.RoundMinutes | nut.py:102 | the minutes are within 30 seconds of the runtime, and even when the runtime sits exactly between two minutes |
| Text.RoundMinutesUnique | nut.py:102 | any minute count with those two properties is the rounded one (round-half-to-even is fully pinned down) |
| Text.RoundMinutesMonotone | nut.py:102 | more runtime never rounds to fewer minutes; a non-negative runtime never rounds below zero |
| Text.RoundMinutesExamples | nut.py:102 | 90 s and 150 s both round to 2 minutes, 210 s to 4, 30 s to 0, 125 s to 2, 1800 s to 30 |
| Text.StatusText | nut.py:163-172 | the status line starts with "Online", "Offline" or "Unknown" exactly for the matching online facet, ends in " (Low Voltage)" or " (Low Battery)" exactly for the matching other facet and in no parenthesised note otherwise, and is 6 or 7 characters plus 14 for a note |
| Text.StatusTextInjective | nut.py:163-172 | different facet pairs never give the same status line |
| Text.StatusTextExample | nut.py:163-172 | online with no condition reads "Online"; offline and low on battery reads "Offline (Low Battery)" |
| Text.BatteryText | nut.py:174-182 | the battery line is the charge string followed by "% Charging" exactly when charging, "% Discharging" exactly when discharging, and a bare "%" exactly otherwise |
| Text.BatteryTextInjective | nut.py:174-182 | for one charge string, the battery line tells the charge facets apart |
| Text.BatteryTextExample | nut.py:174-182 | "75" with no charge facet reads "75%"; "98" while charging reads "98% Charging" |
| Text.RemainingText | nut.py:183-184 | the remaining line is "Remaining: " and " mins" around a canonical integer that parses back to the rounded minutes |
| Text.RemainingTextExample | nut.py:183-184 | 1800 s of runtime reads "Remaining: 30 mins" |
| BatteryIcon.IconOutline | nut.py:134-140 | the contact tab is a filled box (13,3)-(43,13) rounded on its upper corners, resting centred on the casing; the casing is the box (3,13)-(53,119) rounded on all corners, outlined 2 px wide |
| BatteryIcon.SegmentRect | nut.py:147-149 | segment `i` spans x 7 to 49, is 18 px tall, and ends at y = 115 - 20i |
| BatteryIcon.SegmentsStack | nut.py:145-150 | neighbouring segments are exactly 2 px apart, stacked upwards, and segments never overlap |
| BatteryIcon.SegmentInsideCasing | nut.py:126-140 | each of the five segments lies inside the casing outline and below the contact tab |
| BatteryIcon.Guard | nut.py:143-146 | the loop condition holds for index `i` exactly when the charge exceeds 20(i+1)% |
| BatteryIcon.DrawnCount | nut.py:143-146 | the loop condition holds for exactly the indices below the count |
| BatteryIcon.DrawSegments | nut.py:143-150 | the loop as written draws exactly the count's segments, bottom first, and so equals the closed-form segment list |
| BatteryIcon.DrawnCountMonotone | nut.py:143-146 | a higher charge never draws fewer segments |
| BatteryIcon.DrawnCountBounds | nut.py:126-146 | no segment up to 20%, at most four up to 100%, exactly four above 80% |
| BatteryIcon.DrawnCountWholeCharge | nut.py:143-146 | for a whole-number charge, segment `i` is drawn exactly when the charge exceeds 20(i+1)% |
| BatteryIcon.DrawnCountAgainstFloorRule | nut.py:143-146 | the count is floor(charge / 20), less one exactly at positive multiples of 20% |
| BatteryIcon.DrawnSegmentsInsideCasing | nut.py:139-150 | for a charge of at most 100% every drawn segment lies inside the casing |
| BatteryIcon.DrawnCountExamples | nut.py:143-150 | 0, 20, 40, 60, 80, 100 and 75 percent draw 0, 0, 1, 2, 3, 4 and 3 segments |
| Display.RowY | nut.py:181-186 | line `k` starts at y = 24k, one font height plus the spacing below line `k - 1` |
| Display.TextRows | nut.py:152-187 | text lines go strictly downwards, in column x = 66 right of the casing |
| Display.PlaceLines | nut.py:181-186 | placed line `k` keeps its text and sits at x = 66, y = 24k |
| Display.IconShapes | nut.py:134-150 | the icon is the contact tab, the casing, then one filled rectangle per drawn segment, bottom first |
| Display.Render | nut.py:142-194 | an update fails with `ValueError` for exactly the status strings no member has; otherwise the frame has two shapes more than the drawn segment count, five text lines, and the refresh the caller asked for |
| Display.RenderedShapes | nut.py:134-187 | a status string that is a member's value renders, with the icon for its charge and the five lines at x = 66, y = 0, 24, 48, 72, 96 |
| Display.RenderedLines | nut.py:157-187 | for a member's status string the five lines are the status text of its online and other facets, the battery text of its charge facet, the remaining, load and uptime texts |
| Display.UpdateDisplay | nut.py:91-194 | the step-by-step update, with the segment loop, produces the frame `Render` describes |
| Display.ExampleOnline | nut.py:100-187 | 75% on line power with 1800 s left shows "Online", "75%", "Remaining: 30 mins", "Load: 120W" and three segments |
| Display.ExampleUnknownCode | nut.py:158 | the status string "WEIRD" aborts the update with `ValueError` |

## Left out

- The NUT client query (nut.py:97-104): telemetry is an input value, and the
  `KeyError` of a missing variable is not modelled.
- `float` of `battery.charge` (nut.py:143) and `int` of `battery.runtime`
  (nut.py:102): the inputs carry the converted numbers, so the `ValueError`
  of a malformed number is not modelled, and the charge is an exact real,
  not an IEEE double.
- Text.RoundMinutes: rounds the exact quotient, while Python first divides
  in floating point; the two agree for any runtime below about 2^40 seconds,
  far beyond a battery runtime.
- Imaging calls (nut.py:107-111, 135-140, 148, 181-190): font loading,
  rasterisation and the 180-degree rotation are not modelled; shapes and
  text positions are returned as data. The canvas size comes from the panel
  driver, which is not part of this model, so no canvas-bounds property is
  stated.
- The e-paper driver (nut.py:17, 22, 191-194, 204, 239): only the choice of
  full or partial refresh is kept in the frame.
- The uptime text (nut.py:186): it comes from an operating-system clock and
  `timedelta` formatting, so it is a string parameter.
- The main loop, its one-second cadence and its exception handlers
  (nut.py:199-240): timing and logging, with floats.
- The commented-out partial-update code (nut.py:215-232): never runs.
