# Kamchatka earthquake map — a verified model of its core

The page shows the 2025 Kamchatka earthquake on a Leaflet map with a
sidebar of damage figures. Under the map and DOM wiring sit three pieces
of bookkeeping, and this project models them in Dafny:

- **The map script** (`assets/js/script.js`), module `MapScript`:
  - the colour and icon switches and the popup field rules;
  - the `add…` functions, which create one layer per dataset entry and put
    it on the map. Four of them push their layers into the page's
    collection for that kind. `addEpicenter` keeps its one marker in
    `earthquakeMarker`, and `addMonitoringStations` keeps its markers in
    no variable at all;
  - `toggleLayers`, which flips `layersVisible` and restyles every
    collected layer in place.

  The page's module-level variables are the fields of the class
  `Scene`. The Leaflet map is the set `attached` of layer handles it
  holds. `addTo` adds a handle to that set and `removeLayer` takes one
  out; both are idempotent.
- **The legend** (`components/legend.js`), module `Legend`: the class
  `EarthquakeLegend` holds the five category flags, a flag for the
  legend's own visibility, and the layer checkboxes. It has:
  - per-category toggles that attach or detach a whole collection;
  - bulk show/hide;
  - statistics;
  - export and import of the flag object.

  The flag object is itself a class (`LayerStates`), because
  `exportConfig` hands out the live object rather than a copy.
- **The info panel** (`components/info-panel.js`), module `InfoPanel`:
  - the CSV text `downloadCSV` builds;
  - the `exportData` format dispatch;
  - the sidebar, section and damage-card toggles;
  - the emergency-status advance and the simulated counter bumps.

  The elements the panel reads and writes are fields of the class
  `Panel`. An element that may be missing is an `Option`.

Three supporting modules:

- `EarthquakeData` holds the dataset records and a fixture taken from
  `assets/js/earthquake-data.js`.
- `JsText` models the two JavaScript conversions the panel relies on:
  `parseInt` with no radix, and the decimal text of an integer.
- `Common` holds `Option` and a few sequence helpers.

Randomness (`Math.random()` draws), times and timestamps are method
parameters.

Properties proved, beyond each operation's own contract:

- A legend category's flag agrees with its collection being wholly
  attached or wholly detached. Every toggle, show/hide and import keeps
  this agreement (`Legend.Agrees` and the lemmas about it).
- When no text field holds a line break, the CSV text splits into
  exactly the header line and one line per area, in order.
- The CSV row template quotes text fields without doubling inner
  quotes. Under section 2 (rule 7) of RFC 4180 such a field reads back
  as written exactly when it holds no double quote.
- The emergency status advances at most once, and never to
  'Assessment Phase'.
- A counter bump reads back as the old value plus the step, or as "NaN".
- Two sidebar toggles, two section toggles and two card toggles restore
  the state; each has its stated exception.

## Model

| member | source | states |
|---|---|---|
| MapScript.DamageColor | assets/js/script.js:367-374 | severe, moderate and light map to red, amber and green; every other level maps to grey (each as an if-and-only-if) |
| MapScript.InfrastructureColor | assets/js/script.js:394-401 | operational, damaged and offline map to green, amber and red; every other status maps to grey (each as an if-and-only-if) |
| MapScript.KamchatkaColours | assets/js/earthquake-data.js:69-208 | every damage level and infrastructure status in the Kamchatka dataset has a colour of its own, so no marker falls back to grey |
| MapScript.AreaIcon | assets/js/script.js:376-383 | city, town and village each get their own marker glyph, and every other type gets the pin (each as an if-and-only-if) |
| MapScript.AreaEmoji | assets/js/script.js:385-392 | city and town get their glyph plus the variation tail, village its glyph, and every other type the pin (each as an if-and-only-if) |
| MapScript.InfrastructureIcon | assets/js/script.js:403-412 | bridge, power, airport, port and hospital each get their own marker glyph, and every other type gets the construction glyph (each as an if-and-only-if) |
| MapScript.InfrastructureEmoji | assets/js/script.js:414-421 | the popup glyph follows the same six-way rule as the marker glyph (each as an if-and-only-if) |
| MapScript.InfrastructureIconIsEmoji | assets/js/script.js:403-421 | the marker icon and the popup emoji of infrastructure agree for every input |
| MapScript.AreaIconVersusEmoji | assets/js/script.js:376-392 | an area's icon and emoji agree exactly when the type is not city or town; for those two the emoji is the icon plus a variation tail; unknown types fall back to the same pin |
| MapScript.FirstToken | assets/js/script.js:143 | the risk word is the longest space-free prefix of the label: it holds no space and is followed by a space or the end |
| MapScript.PowerStatus | assets/js/script.js:194 | the power line reads Outage exactly when there is an outage, and Normal exactly when there is not |
| MapScript.EpicenterLayer | assets/js/script.js:62-118 | the epicenter becomes a red marker at its coordinates labelled with the magnitude, whose popup shows the magnitude and region; restyling never changes it |
| MapScript.BufferLayer | assets/js/script.js:125-147 | a buffer zone becomes a circle whose radius in metres divided by 1000 is the zone's km radius; its popup shows that radius and the label's first token |
| MapScript.AreaLayer | assets/js/script.js:155-199 | an area becomes a marker coloured by its damage level, whose popup says Outage exactly when power is out |
| MapScript.TsunamiLayer | assets/js/script.js:207-226 | a tsunami area becomes a blue polygon through its coordinates, whose popup shows its name and wave height; it is created in the style that showing the layers gives it |
| MapScript.InfrastructureLayer | assets/js/script.js:234-274 | an infrastructure point becomes a marker coloured by its status, whose glyph is the one its popup shows |
| MapScript.StationLayer | assets/js/script.js:282-312 | a station becomes a purple marker with no glyph at its coordinates, whose popup shows its name and intensity; restyling never changes it |
| MapScript.BufferLayers | assets/js/script.js:122-151 | one circle per zone, in dataset order |
| MapScript.AreaLayers | assets/js/script.js:154-203 | one marker per affected area, in dataset order |
| MapScript.TsunamiLayers | assets/js/script.js:206-230 | one polygon per tsunami area, in dataset order |
| MapScript.InfrastructureLayers | assets/js/script.js:233-278 | one marker per infrastructure entry, in dataset order |
| MapScript.StationLayers | assets/js/script.js:281-314 | one marker per monitoring station, in dataset order |
| MapScript.Attach | components/legend.js:113-119 | after `addTo` of every handle of a collection, all of them are on the map; after `removeLayer`, none are; every other handle keeps its state |
| MapScript.AttachIdempotent | components/legend.js:109-166 | attaching or detaching the same collection twice gives the same map as doing it once |
| MapScript.Restyled | assets/js/script.js:331-345 | restyling keeps the popup and changes only the opacity: markers of areas and infrastructure get 1 or 0.3, tsunami polygons 0.3 or 0.1, buffer circles keep their fill or get 0; epicenter and stations are untouched |
| MapScript.HideThenShow | assets/js/script.js:326-346 | hiding then showing restores markers and tsunami polygons in their shown style, but leaves buffer circles with fill 0, because the shown fill is read back from the options that hiding overwrote; the epicenter and stations are never restyled |
| MapScript.RestyledIdempotent | assets/js/script.js:326-346 | restyling a layer twice for the same visibility is the same as doing it once |
| MapScript.RestyleMap | assets/js/script.js:331-345 | restyling a collection changes no layer's existence |
| MapScript.ToggledLayers | assets/js/script.js:326-346 | `toggleLayers` creates and removes no layer |
| MapScript.RestyleEach | assets/js/script.js:331-345 | one `forEach` restyle loop gives the layer table `RestyleMap` describes |
| MapScript.RestyleCollections | assets/js/script.js:331-345 | the four restyle loops, in source order, give the layer table `ToggledLayers` describes |
| MapScript.Scene.CollectionsDisjoint | assets/js/script.js:149 | no handle is in two collections; neither the epicenter marker nor any station marker is in a collection |
| MapScript.Scene.constructor | assets/js/script.js:4-10 | the page starts with no epicenter marker, empty collections, every created layer attached and `layersVisible` true |
| MapScript.Scene.InitializeMap | assets/js/script.js:21-59 | the six add calls run in order; afterwards every created layer is attached, the epicenter marker holds the epicenter layer, and each collection holds, in dataset order, exactly the layers built from its entries |
| MapScript.Scene.CreateEach | assets/js/script.js:125-149 | one handle per layer, in order, numbered from the next free serial, so all are distinct and new; each is stored with its layer and attached, the table gains exactly these keys, and earlier layers are unchanged |
| MapScript.Scene.Create | assets/js/script.js:102 | one fresh handle is stored with its layer and attached |
| MapScript.Scene.AddEpicenter | assets/js/script.js:62-119 | the epicenter marker is created and attached, and is kept in `earthquakeMarker` |
| MapScript.Scene.AddBufferZones | assets/js/script.js:122-151 | `bufferCircles` grows by exactly the new handles, one distinct, newly created and attached circle per zone holding its layer, in order; the table gains exactly those keys and keeps every earlier layer; run after the earlier add steps, it leaves the state `Initialized` describes for one more step |
| MapScript.Scene.AddAffectedAreas | assets/js/script.js:154-203 | `affectedMarkers` grows by exactly the new handles, one distinct, newly created and attached marker per area holding its layer, in order; the table gains exactly those keys and keeps every earlier layer; run after the earlier add steps, it leaves the state `Initialized` describes for one more step |
| MapScript.Scene.AddTsunamiAreas | assets/js/script.js:206-230 | `tsunamiLayers` grows by exactly the new handles, one distinct, newly created and attached polygon per area holding its layer, in order; the table gains exactly those keys and keeps every earlier layer; run after the earlier add steps, it leaves the state `Initialized` describes for one more step |
| MapScript.Scene.AddInfrastructureDamage | assets/js/script.js:233-278 | `infrastructureMarkers` grows by exactly the new handles, one distinct, newly created and attached marker per entry holding its layer, in order; the table gains exactly those keys and keeps every earlier layer; run after the earlier add steps, it leaves the state `Initialized` describes for one more step |
| MapScript.Scene.AddMonitoringStations | assets/js/script.js:281-314 | one distinct, newly created and attached marker per station, in order, which no variable of the page keeps; the table gains exactly those keys and keeps every earlier layer; run after the other five add steps, it leaves the state `Initialized` describes for all six |
| MapScript.Scene.SetAttached | components/legend.js:113-119 | the map becomes `Attach` of the old map and the collection |
| MapScript.Scene.ToggleLayers | assets/js/script.js:326-346 | `layersVisible` flips, the set of layers on the map is untouched, and the layer table is the restyled one |
| MapScript.Scene.ToggledByOrigin | assets/js/script.js:326-346 | after `toggleLayers`, each layer is restyled by the rule for the function that made it |
| MapScript.Scene.Membership | assets/js/script.js:149 | a layer is in a collection exactly when that collection's add function created it |
| Legend.CategoryKey | components/legend.js:281-297 | only the four collection-backed categories move layers, and monitoring is not one of them |
| Legend.Shown | components/legend.js:277-297 | the layers on the map after import lie among the created layers |
| Legend.ShownNothing | components/legend.js:268-299 | applying no entries leaves the map as it was |
| Legend.Switched | components/legend.js:281-297 | one case of the switch leaves only created layers on the map |
| Legend.AttachSwitches | components/legend.js:109-166 | a category toggle attaches or detaches exactly the layers of that category's group |
| Legend.ShownStep | components/legend.js:277-297 | applying one more entry of the imported states is one more switch case |
| Legend.CollectionOf | components/legend.js:109-166 | a key that names none of the four collections moves no layer |
| Legend.ToggleAgrees | components/legend.js:109-166 | a category toggle keeps every flag agreeing with its collection's attachment |
| Legend.UniformAgrees | components/legend.js:223-256 | all flags equal to v, with every collection attached when v and detached otherwise, is an agreeing state |
| Legend.ShownAgrees | components/legend.js:268-299 | after import, every category flag agrees with its collection |
| Legend.AttachEvery | components/legend.js:223-256 | the four category toggles with one value attach or detach exactly the union of the collections |
| Legend.VisibleLayers | components/legend.js:208 | the count of visible layers is at most the number of keys; it equals it exactly when all flags are true, and is 0 exactly when all are false |
| Legend.LayerStates.constructor | components/legend.js:270 | the flag object holds exactly the given entries |
| Legend.EarthquakeLegend.constructor | components/legend.js:5-63 | all five flags are true and the legend is visible; with a container, the five checkboxes exist checked; the flags agree with the map exactly when every collected layer is attached |
| Legend.EarthquakeLegend.ToggleBufferZones | components/legend.js:109-121 | sets one flag; attaches or detaches every buffer circle and nothing else; flags that agreed with the map still agree |
| Legend.EarthquakeLegend.ToggleAffectedAreas | components/legend.js:124-136 | sets one flag; attaches or detaches every affected-area marker and nothing else; flags that agreed with the map still agree |
| Legend.EarthquakeLegend.ToggleTsunamiAreas | components/legend.js:139-151 | sets one flag; attaches or detaches every tsunami polygon and nothing else; flags that agreed with the map still agree |
| Legend.EarthquakeLegend.ToggleInfrastructure | components/legend.js:154-166 | sets one flag; attaches or detaches every infrastructure marker and nothing else; flags that agreed with the map still agree |
| Legend.EarthquakeLegend.ToggleMonitoring | components/legend.js:169-183 | sets the monitoring flag and moves no layer, because no monitoring marker collection exists; flags that agreed with the map still agree |
| Legend.EarthquakeLegend.SetEveryFlag | components/legend.js:224-230 | every existing flag gets the value; the checkbox of each existing key is set, and other checkboxes are untouched |
| Legend.EarthquakeLegend.ToggleEveryCategory | components/legend.js:232-237 | the five toggles attach or detach every collected layer, and the flags then agree with the map |
| Legend.EarthquakeLegend.ShowAllLayers | components/legend.js:223-238 | every flag is true, every collected layer is attached, and the flags agree with the map |
| Legend.EarthquakeLegend.HideAllLayers | components/legend.js:241-256 | every flag is false and no collected layer is attached, while the epicenter and stations stay; the flags agree with the map |
| Legend.EarthquakeLegend.GetLegendStats | components/legend.js:203-210 | the totals are the dataset lengths, and the visible count is the number of layer flags that are on, so at most the number of flags |
| Legend.EarthquakeLegend.ToggleLegendVisibility | components/legend.js:213-220 | flips visibility and sets display to block or none only when the container exists; otherwise nothing changes |
| Legend.EarthquakeLegend.ExportConfig | components/legend.js:259-265 | the exported config holds the live flag object itself, the visibility and the timestamp |
| Legend.EarthquakeLegend.ImportConfig | components/legend.js:268-299 | no config or no flags: nothing changes. Otherwise a fresh flag object holds exactly the snapshot, so missing keys vanish; checkboxes follow the snapshot; the map is the old map with each snapshot category switched; the flags agree with the map |
| Legend.EarthquakeLegend.ReimportOwnExport | components/legend.js:259-299 | importing the flags of the legend's own export, while they agree with the map, leaves the flags and the map as they were |
| Legend.EarthquakeLegend.ApplyEntries | components/legend.js:272-297 | the loop over the entries leaves the flags as they are, sets the checkboxes, and switches each category to its value |
| Legend.EarthquakeLegend.ApplyVisibility | components/legend.js:281-297 | a category key sets its flag and switches its layers; any other key changes nothing |
| InfoPanel.BuildCsv | components/info-panel.js:392-397 | the `+=` loop produces exactly the header line and one newline-terminated row per area, in order |
| InfoPanel.CsvText | components/info-panel.js:392-397 | the CSV text opens with the header line and its newline and ends with a newline |
| InfoPanel.Quoted | components/info-panel.js:396 | a quoted field is the field between two double quotes, with nothing escaped |
| InfoPanel.RowLine | components/info-panel.js:396 | a row opens with the quoted area name and a comma and closes with the injured count |
| InfoPanel.CsvLines | components/info-panel.js:392-397 | when no text field holds a line break, the CSV splits into exactly the header and one row per area, in dataset order |
| InfoPanel.HeaderSingleLine | components/info-panel.js:393 | the header holds no line break |
| InfoPanel.RowLineSingleLine | components/info-panel.js:396 | a row holds no line break when its text fields hold none; numbers never do |
| InfoPanel.Unescape | components/info-panel.js:396 | reading a quoted field under RFC 4180 never lengthens it, and shortens it whenever it holds a quote |
| InfoPanel.Escape | components/info-panel.js:396 | the escaping the RFC asks for never shortens a field |
| InfoPanel.UnescapeEscape | components/info-panel.js:396 | a field escaped as the RFC asks always reads back as itself |
| InfoPanel.QuotedFieldReadsBack | components/info-panel.js:396 | the unescaped field the row template writes reads back as written exactly when it holds no double quote, which is also exactly when escaping would leave it unchanged |
| InfoPanel.ExportData | components/info-panel.js:358-411 | json and csv download (the JSON record holds the event, the areas, the infrastructure, the tsunami areas and the time; the CSV is `CsvText`), pdf only shows the message, and any other format does nothing (each as an if-and-only-if) |
| InfoPanel.SidebarFor | components/info-panel.js:311-330 | collapsed: 60px, hidden and ▶; expanded: 320px, auto and ◀; a button exists after exactly when it existed before |
| InfoPanel.SidebarForTwice | components/info-panel.js:311-330 | styling for one state and then the other is styling for the second, so two toggles restore a sidebar styled for its state |
| InfoPanel.ToggledSection | components/info-panel.js:300-308 | with content, the section is hidden after exactly when it was not hidden before, and the button shows ▶ exactly when it is hidden; without content nothing changes |
| InfoPanel.SectionTwice | components/info-panel.js:300-308 | two toggles bring back `none` for hidden content and `block` for any other display |
| InfoPanel.FirstDetails | components/info-panel.js:290-291 | the index found holds a details panel and no child before it is one |
| InfoPanel.WithoutFirstDetails | components/info-panel.js:290-293 | a card without a details panel keeps its children; otherwise the first details panel, and only it, is removed and the other children keep their order |
| InfoPanel.ToggledCard | components/info-panel.js:275-297 | a card not marked 'true' is marked 'true' and gains a details panel after its existing children; a marked card is marked 'false' and loses its first details panel, the other children staying in order |
| InfoPanel.CardTwice | components/info-panel.js:275-297 | expanding a card that has no details panel and collapsing it again restores its children |
| InfoPanel.IndexOf | components/info-panel.js:338 | `indexOf` gives the first index holding the value, or -1 exactly when it is absent |
| InfoPanel.NextStatus | components/info-panel.js:333-345 | only 'Active Emergency' with a draw above 0.9 changes, and it becomes 'Response Active'; every other text stays |
| InfoPanel.StatusAfter | components/info-panel.js:333-345 | over any number of calls, a status that changed has become 'Response Active' |
| InfoPanel.StatusAdvancesOnce | components/info-panel.js:333-345 | over any number of calls the status stays or becomes 'Response Active'; 'Assessment Phase' appears only if it was there from the start |
| InfoPanel.ResponseStays | components/info-panel.js:333-345 | once 'Response Active', the status never changes again |
| InfoPanel.Scaled | components/info-panel.js:184 | `Math.floor(Math.random() * k)` is a whole number below k |
| InfoPanel.Bumped | components/info-panel.js:183-192 | a bumped counter reads "NaN" exactly when its old text did not start with a number |
| InfoPanel.LetterStartIsNaN | components/info-panel.js:183 | `parseInt` of text that starts with a letter is NaN |
| InfoPanel.BumpedReadsBack | components/info-panel.js:183-192 | a numeric counter reads back as its old value plus the step, so it never decreases; a non-numeric one becomes "NaN" and stays not a number |
| InfoPanel.StatusBumpsToNaN | components/info-panel.js:180-192 | a status text in the shared `.text-red-400` element becomes "NaN" when the buildings-damaged update fires on it |
| InfoPanel.BumpedIsNoStatus | components/info-panel.js:178-196 | a bumped counter never reads as a status name |
| InfoPanel.Panel.constructor | components/info-panel.js:5-11 | the panel starts expanded, over the given elements |
| InfoPanel.Panel.ToggleSidebar | components/info-panel.js:311-330 | no `aside`: TypeError and nothing changes. Otherwise `isCollapsed` flips and the sidebar is styled for it; a missing button gives TypeError after the width and overflow are set |
| InfoPanel.Panel.ToggleSection | components/info-panel.js:300-308 | only the i-th section changes, as `ToggledSection` says |
| InfoPanel.Panel.ToggleDamageCard | components/info-panel.js:275-297 | only the i-th card changes, as `ToggledCard` says |
| InfoPanel.Panel.UpdateEmergencyStatus | components/info-panel.js:333-345 | the status text becomes `NextStatus` of the old text and the draw |
| InfoPanel.Panel.SimulateDataUpdates | components/info-panel.js:178-196 | injured is bumped by floor(3·draw) when it exists and its roll exceeds 0.7; the `.text-red-400` text is bumped by floor(2·draw) when it exists and its roll exceeds 0.8; nothing else changes |
| JsText.NatToStringDigits | components/info-panel.js:396 | the decimal text of a number is a non-empty run of digits that reads back as the number |
| JsText.NatToString | components/info-panel.js:396 | the decimal text of a number is non-empty and starts with a digit |
| JsText.IntToString | components/info-panel.js:183-185 | the text of a whole number is non-empty, starts with a minus sign exactly when the number is negative, and otherwise starts with a digit |
| JsText.ParseUnsigned | components/info-panel.js:184 | the digits part of `parseInt` gives a number only when it starts with a decimal digit, and always does when that digit is 1 to 9 |
| JsText.ParseInt | components/info-panel.js:183-185 | `parseInt` gives a number only when a decimal digit follows the leading white space and one optional sign, always does when that digit is 1 to 9, and gives a negative number only after a minus sign |
| JsText.ParseIntOfIntToString | components/info-panel.js:183-185 | `parseInt` of the text a whole number is written as gives that number back |

## Left out

- Leaflet itself is left out: the map object, its tile layer, the zoom and scale controls, `divIcon` HTML, popup rendering and projection. The map is the set of attached handles, and a layer is its shape and popup fields.
- DOM plumbing is left out: event listeners, `innerHTML` markup, `flashElement`, modals, the loading screen, fullscreen and `updateLegend`. Which checkbox `getElementById` finds is kept as the `checkboxes` map.
- Timers are left out: `setInterval`/`setTimeout` scheduling, and the delayed construction of the legend and the panel.
- File download is left out: `JSON.stringify`, `Blob`, object URLs, the anchor click and `alert`. `exportData` returns which effect it would have, with the record or CSV text it would hand over.
- `Math.random()`, `Date` and `toISOString`/`toLocaleTimeString` are left out. Draws and timestamps are parameters.
- Floating point is left out. Coordinates and other printed numbers are kept as the text JavaScript prints for them, and opacities and radii are `real`.
- JsText.IntToString: models `String(n)` for whole numbers only, not the exponent form JavaScript uses from 1e21 upward.
- Legend.EarthquakeLegend.ImportConfig: applies the snapshot's keys in an unspecified order rather than insertion order. The collections are disjoint, so the order cannot change the result. Values are booleans; a truthy non-boolean value is not modelled.
- Legend.EarthquakeLegend.ShowAllLayers: sets only the checkboxes of keys that are in `layerStates`, as the source does. A checkbox whose key an import removed stays as it was.
- InfoPanel.Panel.ToggleSidebar: the button `button:last-child` selects is taken as given rather than computed from the sidebar's markup.
- InfoPanel.Panel.ToggleSection: the content element the selector finds, and the section's button, are taken as given.
- InfoPanel.Panel.ToggleDamageCard: `card.querySelector('.mt-3.pt-3')` is taken to find the first details panel the toggle appended, which is a direct child. Other markup in the card matching that selector, and the TypeError `removeChild` throws for a match that is not a direct child, are not modelled.
- The icon and emoji literals of `assets/js/script.js` are stored in the file double-encoded. The model keeps the code points as stored, not the intended emoji.
- `assets/js/earthquake-data.js` is constant data. It appears only as the record types and one fixture.
