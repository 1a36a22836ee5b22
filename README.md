# Five-day weather forecast script — a verified model

The script asks the user for a city, a two-letter country code and a unit
of measurement. It fetches a 3-hourly five-day forecast from
OpenWeatherMap, then reorganises the provider's flat list of entries into a
dict keyed by date and prints it. This project models, in Dafny, the logic
between the network call and the screen.

- **organize_data** (`organizer.dfy`, module `Organizer`). It walks the list by index.
  - Every index divisible by 8 is a day marker. The marker's date is pulled out with a regex search, and an empty list is stored under that date with `dict.update`. The marker's own time, temperature, description and wind are dropped.
  - Every other index appends `[[time, temp, description, wind]]` to the list opened last, and stores it again.
  - The method `OrganizeData` keeps the source's loop and its state: the dict, the current day and the current list. It is proved equal to a block-wise reference function, `Organize`. The lemmas state the source's promises about that function.
- **The two regex searches** (`timestamp.dfy`). They are leftmost template searches: `dddd-dd-dd` and `dd:dd:dd`, over ASCII digits. A search that finds nothing makes `.group(0)` raise. The model reports this as `NoMatch(index)`.
- **The prompt checks** of `get_location` and `get_unit` (`input.dfy`):
  - a city must be at least two letters;
  - a country code must be exactly two letters;
  - a unit must be one of `standard`, `metric`, `imperial` once lower-cased;
  - typed values are stripped and stored lower-cased;
  - values passed as arguments bypass the check;
  - the unit prompt's rejection message indexes the user's own answer, so a rejected answer shorter than three characters raises IndexError. The model keeps this as an outcome, `IndexError`, of its own.
- **display_data** (`presenter.dfy`):
  - the unit-to-suffix table;
  - the title-cased city and upper-cased country code;
  - the printed lines: a banner, then per day in key order a header and one report per record, in list order.
- **The string methods** the script relies on (`text.dfy`): `strip`, `isalpha`, `lower`, `upper`, `title`, over ASCII.

The main end-to-end result is `Presenter.DisplayOrganized`. When no two day markers carry the same date, printing the organised dict gives the banner and then exactly one line per provider entry, in input order:
- a header with the entry's date for a marker;
- a report with the entry's time, description, temperature and wind for any other entry.

When dates do repeat, `Organizer.RepeatedDateOverwrites`, `Organizer.MarkerKeepsKeys`, `Organizer.KeyOrder` and `Organizer.TwoBlocksOneDate` state what the script does:
- the key keeps its first position: a repeated marker adds no key and moves none;
- only the last such block's records survive.

## Model

| member | source | states |
|---|---|---|
| Organizer.Update | weather_forecast.py:112 | dict.update of one key: the map gets the new value; an existing key keeps its position, a new key goes last; a well-formed dict stays well-formed |
| Organizer.OrganizeData | weather_forecast.py:100-126 | the index loop over the entries, with the dict, current day and current list as state, returns exactly the reference outcome Organize(e) |
| Organizer.LoopStart | weather_forecast.py:101-103 | before the first iteration the loop state holds with an empty dict |
| Organizer.MarkerIteration | weather_forecast.py:108-112 | a marker iteration that finds its date keeps the loop state: the dict gains the date with an empty list, which becomes the current list |
| Organizer.SlotIteration | weather_forecast.py:115-124 | any other iteration that finds its time keeps the loop state: the current list gains [[time, temp, description, wind]] and is stored again under the current day |
| Organizer.LoopEnd | weather_forecast.py:126 | after the last iteration the dict is the reference dict of the whole list |
| Organizer.SlotAt | weather_forecast.py:116-122 | the record built for a non-marker entry holds an HH:MM:SS time and the entry's own temperature, description and wind speed |
| Organizer.FailsAt | weather_forecast.py:111-118 | when every search before entry i succeeds and entry i's fails, organize_data fails at i |
| Organizer.Organize | weather_forecast.py:100-126 | organize_data returns a dict iff every regex search along the list finds its match; otherwise it fails at the first entry whose search finds nothing |
| Organizer.BuildClosedForm | weather_forecast.py:109-124 | a run of dict.update calls leaves the keys in first-occurrence order, each mapped to the value from its last update |
| Organizer.OrganizeEmpty | weather_forecast.py:100-105 | an empty entry list yields an empty dict |
| Organizer.OrganizedShape | weather_forecast.py:108-124 | the result is a well-formed dict whose lists hold only one-element lists |
| Organizer.DistinctMarkersKeys | weather_forecast.py:105-112 | with distinct marker dates: ceil(n/8) keys, the k-th the date of the marker at index 8k, mapped to block k's records |
| Organizer.BlockSizes | weather_forecast.py:105-124 | a full block of 8 entries yields 7 records; a trailing block of r = n mod 8 > 0 entries yields r - 1 |
| Organizer.BlockEntries | weather_forecast.py:115-124 | entry i of block k is stored, wrapped as [[slot]], at position i - 8k - 1 of the block's list |
| Organizer.LastBlockValue | weather_forecast.py:109-124 | the date of a block no later block repeats is a key mapped to exactly that block's records |
| Organizer.EntryPlacement | weather_forecast.py:115-124 | a non-marker entry i lands at position i mod 8 - 1 of the list keyed by the date of the marker at 8 * (i div 8), when no later block repeats that date |
| Organizer.KeyValue | weather_forecast.py:108-124 | the list under any key d is the list of the last block whose marker is dated d, which holds only that block's non-marker records, so no marker's own data is stored |
| Organizer.KeyOrder | weather_forecast.py:112 | keys are ordered by the first marker carrying each date |
| Organizer.RepeatedDateOverwrites | weather_forecast.py:109-112 | when two markers share a date, the later marker adds no key and moves none, and the key holds the records of the last block with that date |
| Organizer.MarkerKeepsKeys | weather_forecast.py:109-112 | a marker whose date an earlier marker already carried leaves the dict's keys and their order unchanged |
| Organizer.TwoBlocksOneDate | weather_forecast.py:109-112 | two blocks with one date give a single key holding only the second block's n - 9 records |
| Organizer.WellFormedInput | weather_forecast.py:111-118 | for timestamps of the form YYYY-MM-DD HH:MM:SS no search fails; the key is the first 10 characters, the time characters 11 to 19 |
| Timestamp.FindDate | weather_forecast.py:111 | the date search finds something iff some ten characters of dt_txt read YYYY-MM-DD, and what it returns matches the template; `Timestamp.SearchLeftmost` shows it is the leftmost match in dt_txt |
| Timestamp.FindTime | weather_forecast.py:118 | the time search finds something iff some eight characters of dt_txt read HH:MM:SS, and what it returns matches the template; `Timestamp.SearchLeftmost` shows it is the leftmost match in dt_txt |
| Timestamp.SearchFrom | weather_forecast.py:111 | a match found from position k lies within the string, at or after k |
| Timestamp.SearchLeftmost | weather_forecast.py:111 | re.search of a fixed-width digit template finds a match iff one exists, and returns the leftmost one |
| Timestamp.WellFormedSlices | weather_forecast.py:118 | on a well-formed timestamp the date search returns its first 10 characters and the time search characters 11 to 19 |
| Text.IsAlpha | weather_forecast.py:52 | str.isalpha accepts exactly the strings that lower-case to a non-empty word of lower-case letters (also used at line 63) |
| Text.Lower | weather_forecast.py:56 | str.lower leaves no upper-case letter, keeps letters letters and keeps every other character (also used at lines 67 and 78-82) |
| Text.Upper | weather_forecast.py:142 | str.upper leaves no lower-case letter, keeps letters letters and keeps every other character |
| Text.Title | weather_forecast.py:141 | str.title changes only the case of letters, and upper-cases a leading letter (also used at line 59) |
| Text.Strip | weather_forecast.py:49 | str.strip removes exactly the leading and trailing whitespace and keeps the middle unchanged |
| Text.LowerTitleAfter | weather_forecast.py:141 | title-casing loses nothing that lower-casing keeps |
| Text.TitleOfLetters | weather_forecast.py:141 | on a word of letters, title-casing capitalises the first letter and lower-cases the rest |
| Input.CityAttempt | weather_forecast.py:48-56 | a typed city is accepted iff, stripped, it is at least two characters and all letters; it is stored lower-cased |
| Input.CountryAttempt | weather_forecast.py:58-67 | a typed country code is accepted iff, stripped, it is exactly two letters; it is stored lower-cased |
| Input.Location | weather_forecast.py:46-69 | city and state given as arguments are returned unchanged; a missing one comes from its typed answer, and a rejected answer means asking again |
| Input.UnitAttempt | weather_forecast.py:76-82 | a typed unit is accepted iff its stripped lower-cased form is standard, metric or imperial, and is stored in that form; a rejected answer shows its first three characters, or raises IndexError when it has fewer than three |
| Input.Unit | weather_forecast.py:72-83 | a unit argument is returned without any check; otherwise the outcome is exactly that of the one typed answer, UnitAttempt |
| Input.CityIdempotent | weather_forecast.py:48-56 | typing back an accepted city stores the same value |
| Input.CountryIdempotent | weather_forecast.py:58-67 | typing back an accepted country code stores the same value |
| Input.UnitIdempotent | weather_forecast.py:74-82 | each listed unit is accepted as typed, and an accepted answer typed back is accepted unchanged |
| Input.AcceptedExactly | weather_forecast.py:48-67 | the stored cities are exactly the lower-case words of two or more letters, the stored country codes exactly those of two |
| Input.SampleCities | weather_forecast.py:48-56 | "a" and "new york" are refused as cities; "Paris" is stored as "paris" |
| Input.SampleCountries | weather_forecast.py:58-67 | "usa" and "u1" are refused as country codes; "US" is stored as "us" |
| Input.SampleUnits | weather_forecast.py:76-82 | "METRIC" is stored as "metric"; "kelvin" is refused showing "kel"; "ab" raises IndexError |
| Presenter.UnitSuffixes | weather_forecast.py:130-138 | metric prints C and m/s, imperial prints F and mph, any other string K and m/s |
| Presenter.SuffixesIdentifyUnit | weather_forecast.py:130-138 | on the accepted units, the suffixes tell the unit apart |
| Presenter.LegendFor | weather_forecast.py:140-142 | the shown city and country code have the original length and lower-case form, and the code has no lower-case letter |
| Presenter.UpperLower | weather_forecast.py:142 | lower-casing an upper-cased string gives the lower-cased original |
| Presenter.ShownPlaceRecoverable | weather_forecast.py:140-142 | for stored lower-case words, the shown city is capitalised with the rest unchanged, the code is all capitals, and lower-casing gives back both stored values |
| Presenter.DayLines | weather_forecast.py:146-150 | one day prints as its header followed by one report per record, in list order, showing each record's first element |
| Presenter.DaysLines | weather_forecast.py:146-150 | at least one line per day, none of them a banner |
| Presenter.Render | weather_forecast.py:129-150 | the output opens with the banner, which appears nowhere else, and has at least one more line than the dict has days |
| Presenter.RegroupDay | weather_forecast.py:146-150 | reading back one day's lines adds that day with the records shown, in order |
| Presenter.RegroupDays | weather_forecast.py:146-150 | reading back the day lines gives every day in key order with its records in list order |
| Presenter.RenderRegroups | weather_forecast.py:129-150 | the printed lines lose nothing of the dict but the wrapping lists: reading them back gives the days in order with their records |
| Presenter.RegroupBanner | weather_forecast.py:144 | the banner carries no forecast data |
| Presenter.Printed | weather_forecast.py:144-150 | the banner prints its fixed sentence; a header prints as `***** For <day> *****`; a report starts with "At " |
| Presenter.ReportPlace | weather_forecast.py:149 | a report shows the record's time after "At ", then the city and country code joined by a comma after ", the weather in ", then the description after " will have " |
| Presenter.ReportTemperature | weather_forecast.py:149 | after the place, a report's second line shows the temperature after "Temperature: ", followed by a space and the temperature suffix |
| Presenter.ReportWind | weather_forecast.py:149-150 | a report ends with a line showing the wind speed after "Wind Speed: ", followed by a space, the speed suffix and a newline; its length is that of its fields plus the fixed text |
| Presenter.PrintedHeaderDay | weather_forecast.py:147 | the date can be read back from its printed header, and no report prints like a header |
| Presenter.EntryLines | weather_forecast.py:146-150 | one printed line per provider entry, in input order |
| Presenter.MarkerLine | weather_forecast.py:108-112 | the marker of block k prints as the header of the block's date |
| Presenter.ReportLine | weather_forecast.py:115-150 | any other entry of block k prints as its report, at its place among the block's lines |
| Presenter.BlockLines | weather_forecast.py:105-150 | block k of the provider list prints as one line per entry of the block |
| Presenter.OrganizedPrintable | weather_forecast.py:108-150 | every dict organize_data returns can be printed: each key is mapped and each record has a first element |
| Presenter.DaysLinesPrefix | weather_forecast.py:146-150 | the first m days print as the first m - 1 days followed by day m |
| Presenter.DaysPrefixLines | weather_forecast.py:105-150 | with distinct marker dates, the first m days print as the lines of the first min(8m, n) entries |
| Presenter.DisplayOrganized | weather_forecast.py:100-150 | with distinct marker dates, the printed output is the banner followed by exactly one line per provider entry: a header for a marker, its report for any other entry |

## Left out

- get_weather (weather_forecast.py:86-97) is not modelled. It covers the HTTP request, raise_for_status, JSON decoding and exception logging, which are network I/O and a foreign library.
- The environment-variable lookup, the logging set-up and main (weather_forecast.py:7-43) are not modelled. They are configuration and glue.
- The `while ... is None` loops in get_location and get_unit are not modelled. Each call models one answer to one prompt; a rejected answer is returned as "ask again" instead of re-reading standard input. The printed prompts and messages are not modelled either.
- display_data's `print` calls are modelled as the sequence of lines they print, one Line per call. `Presenter.Printed` gives each line's text.
- Text only treats ASCII. `str.isalpha`, `str.strip`, `str.lower`, `str.upper`, `str.title` and the regex `\d` are modelled over ASCII characters. Python's Unicode letters, digits and whitespace are not.
- The provider's JSON is taken as already decoded into entries. A missing key (`main`, `weather[0]`, `wind`) would raise KeyError or IndexError in the source; the model cannot express that.
- Temperatures and wind speeds are carried unchanged as the text Python prints for them. No arithmetic is done on them.
- `weather_info` is one list object, shared between the local variable and the dict value. The model holds it as a value and stores it again after every append, as the source does at line 124. The outcome is the same, but object identity is not modelled.
- Presenter.DaysLines: its contract states only a lower bound on length and that no line is a banner. The key order and the lines' content are stated by `Presenter.RegroupDays` and `Presenter.DisplayOrganized`.
- Presenter.Render: its contract states only the banner and a lower bound on length. The full content is stated by `Presenter.RenderRegroups` and `Presenter.DisplayOrganized`.
