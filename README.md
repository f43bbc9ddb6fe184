# Tank review — a Dafny model

This project models `tank_review.py`, a small domain model of combat tanks. An
`ArmorType` enumeration gives each armor classification a label and a flat bonus. A
`Tank` object holds a base armor, a penetration, an armor type and a stored name. When no
name is given, the name falls back to a default built from the stats. The tank also
offers an effective ("real") armor, a vulnerability test against another tank, an
in-place armor swap between two tanks and a slug string form. A standalone
`test_tank_safe` reports whether any tank in a list withstands a shooter.

Layout:

- `wrappers.dfy` (`Wrappers`): `Option` (Python's `None`) and `Result`.
- `armor.dfy` (`Armor`): the `ArmorType` datatype and its `Label`/`Bonus` table.
- `text.dfy` (`Text`): ASCII lower-casing, single-character replacement, the slug built
  from them, decimal rendering of integers, and a decimal parser. The parser serves as
  the reference that proves the rendering injective.
- `tank.dfy` (`Tanks`): `DefaultName`, the class `Tank` (fields `armor`, `penetration`,
  `armorType` and `storedName`), clients `SwapTwice`/`SwapWithSelf`, `NewTank` with
  its tagged argument `ArmorArg`, and `AllVulnerable`/`TestTankSafe`.

The stored name (`_name` in the source) is the field `storedName`. `Name()` is the
getter and `SetName` is the setter. The setter takes an `Option<string>`; both `None` and
`""` are falsy, as with Python's `or`. `Tank.Valid()` states that the stored name is
never empty. The constructor and the setter establish it, and the swap does not touch
the name.

Two points about the source:

- The armor type is checked only in the constructor (tank_review.py:25-26), which raises
  a plain `Exception`. The model's `NewTank` takes the argument as `ArmorArg`: either a
  `Member` of the enumeration or some `Other` value. It returns
  `Failure(InvalidArmorType(..))` exactly for `Other`.
- `armor_type` is reassignable after construction like every Python attribute.
  Assigning it directly does not re-validate it, so the model has no setter for it.

## Model

| member | source | states |
|---|---|---|
| `Armor.ArmorType.Label` | tank_review.py:4-13 | the label of every variant is a non-empty word of lower-case letters without spaces (`chobham`, `composite`, `ceramic`) |
| `Armor.ArmorType.Bonus` | tank_review.py:15-18 | the bonus is 100 exactly for CHOBHAM and 50 for the two others |
| `Armor.LabelInjective` | tank_review.py:6-8 | distinct variants have distinct labels, so the label identifies the variant |
| `Text.LowerChar` | tank_review.py:62 | an ASCII capital is shifted to its lower-case letter; every other character is unchanged; no result is a capital |
| `Text.Lower` | tank_review.py:62 | ASCII lower-casing keeps the length and lower-cases each character in place (for ASCII text this is `str.lower()`) |
| `Text.ReplaceChar` | tank_review.py:62 | `str.replace` of one character keeps the length and replaces exactly the positions holding that character |
| `Text.Slug` | tank_review.py:62 | the slug has the name's length and no space or capital; each position is `-` where the name had a space, else the lower-cased character |
| `Text.SlugIdempotent` | tank_review.py:62 | taking the slug of a slug changes nothing |
| `Text.NatToString` | tank_review.py:45 | a natural number renders as a non-empty string of decimal digits with no leading zero; it starts with `0` only for zero |
| `Text.IntToString` | tank_review.py:45 | an integer renders without spaces, as digits, with a leading `-` exactly when it is negative and no leading zero on the magnitude |
| `Text.ParseNatRoundTrip` | tank_review.py:45 | parsing a natural number's rendering gives the number back |
| `Text.ParseIntRoundTrip` | tank_review.py:45 | parsing an integer's rendering gives the integer back |
| `Text.IntToStringInjective` | tank_review.py:45 | distinct integers render differently |
| `Tanks.DefaultName` | tank_review.py:43-45 | the default name is never empty and starts with `Tank ` |
| `Tanks.DefaultNameInjective` | tank_review.py:43-45 | equal default names come from the same armor type, armor and penetration, so the default name records the stats at the time it was built |
| `Tanks.Tank.constructor` | tank_review.py:24-31 | the three stats are stored as given; a truthy name is stored verbatim, otherwise the default name from those stats; the tank satisfies `Valid()` |
| `Tanks.Tank.Name` | tank_review.py:33-36 | the getter returns the stored name, which is never empty for a valid tank |
| `Tanks.Tank.SetName` | tank_review.py:38-41 | a truthy value is stored verbatim; `None` or `""` stores the default built from the current stats; only the stored name changes and the tank becomes valid |
| `Tanks.Tank.RealArmor` | tank_review.py:47-50 | the effective armor is the current base armor plus the armor type's bonus: 100 more for CHOBHAM, 50 more otherwise |
| `Tanks.Tank.Vulnerable` | tank_review.py:52-54 | a tank is vulnerable iff its base armor plus bonus is at most the attacker's penetration; a tie counts as vulnerable; a function, so neither tank changes |
| `Tanks.Tank.SwapArmor` | tank_review.py:56-59 | the two base armors are exchanged and `other` is returned; the new effective armor follows the new base armor; penetration, armor type and stored name of both tanks stay as they were |
| `Tanks.SwapTwice` | tank_review.py:58 | swapping twice between the same pair restores both original armor values |
| `Tanks.SwapWithSelf` | tank_review.py:58 | swapping a tank with itself leaves its armor unchanged |
| `Tanks.Tank.ToString` | tank_review.py:61-62 | the string form has the name's length and no space; each position is `-` for a space, else the lower-cased name character; it is non-empty for a valid tank |
| `Tanks.NewTank` | tank_review.py:24-31 | construction fails with the offending value exactly when the armor-type argument is not a member of the enumeration; for a member it builds a fresh valid tank with that type, those stats and the name rule |
| `Tanks.AllVulnerable` | tank_review.py:100 | true iff every tank in the list is vulnerable to the shooter |
| `Tanks.TestTankSafe` | tank_review.py:98-101 | the answer is `A tank is safe` iff some candidate is not vulnerable to the shooter, and otherwise `No tank is safe`; a missing or empty list gives `No tank is safe` |

## Left out

- The module-level demo script (tank_review.py:68-96 and 103) is left out. It consists of
  example fixtures and `print` calls with no reusable logic. Its `[Tank(...)] * 5` list
  holds five references to one object, so the renaming loop leaves that single tank named
  `Tank4_Small`.
- `__repr__` (tank_review.py:64-65) is left out. It only delegates to `__str__`, which
  `Tank.ToString` models.
- The exception message text at tank_review.py:26 is not modelled. `InvalidArmorType`
  carries the offending value instead.
- `Text.Lower` models only ASCII lower-casing. Python's `str.lower()` also folds
  non-ASCII letters and can change the length (U+0130 becomes two code points). The
  same gap applies to `Text.LowerChar`, `Text.Slug` and `Tanks.Tank.ToString`, whose
  length and per-position claims hold for the ASCII rule only.
- `Text.IntToString` renders integers of any size, and so does `Tanks.DefaultName`.
  CPython refuses to convert an integer of more than 4300 decimal digits to a string by
  default (ValueError). That limit is not modelled.
- `Tanks.NewTank` fails for every non-member argument. In Python 3.12 and later, `in`
  also accepts a member's raw value such as `('chobham', 100)`. The raw tuple is then
  stored, and the default name or `real_armor` raises later. That path is not modelled.
  Before 3.12 a non-Enum argument raises `TypeError` rather than the `Exception` at
  tank_review.py:26. The model does not distinguish the two error kinds.
- `Tanks.Tank.SetName` takes an optional string. Python accepts any value and stores any
  truthy one. Non-string names are not modelled.
