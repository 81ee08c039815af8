# sixleds / fiveleds — a Dafny model of the LED-sign drivers

The drivers keep an in-memory picture of what a serial LED sign should show.
A *line* holds *pages*. Each page has four one-letter effects (lead-in FX,
display MX, wait WX, lagging FY) and a message. Numbered *schedules* say
which pages run between two dates. Every page and schedule carries a
`changed` flag. `pushchanges` walks the pages of each line, then the
schedules. It clears each flag and writes every marked object to the sign
as one checksummed frame `<ID nn>` body checksum `<E>`. It then counts the
`ACK` replies and saves the configuration when at least one write was
acknowledged.

Two boards are covered by one driver class, `Device.Leds`, whose `variant`
is `SixLeds` (the advanced board) or `FiveLeds` (the basic board). The
variant decides:

- the display-mode alphabet;
- the special-character table;
- the `<BE>`/`<BF>` brackets around a push;
- whether graphics can be programmed;
- the widest character a frame may carry (255 on the advanced board, whose
  writes are raw code points; 127 on the basic board, whose writes are
  ASCII).

Pages (`Pages.Page`), schedules (`Schedules.Schedule`), the driver
(`Device.Leds`) and the graphic editor's LED grid (`Editor.GraphicWindow`)
are classes, because the source updates their fields in place. Python
dictionaries keep insertion order, so the driver's dictionaries are maps
plus order sequences (`lineOrder`, `pageOrder`, `schedOrder`).

The serial line is two fields of the driver:

- `sent`, every frame written so far;
- `replies`, an oracle queue of what the sign will have buffered at each
  read.

Each read takes the next entry, and an empty queue reads as nothing.
Address 0 is a broadcast that is never read and always counts as a success.

Around the driver sit:

- the checksum and framing (`Checksum`, `Hex`);
- the schedule date parser and formatter (`Dates`);
- the escape of special characters into `<Unn>` tokens (`Escape`,
  `Translate`);
- the graphic packer of `programgraphic` (`Graphic`);
- the pure logic of the advanced board's window: the display-mode table
  (`DisplayModes`), the schedule dialog (`ScheduleDialog`) and the LED
  editor (`Editor`);
- one end-to-end session on the basic board (`Sessions`).

Where descriptions of the drivers and the code differ, the model follows the
code:

- `pushchanges` clears each flag before deciding to send, so a failed write
  leaves the object clean.
- The driver's lines are walked in insertion order; only the pages within a
  line are sorted.
- `brightness` reads one reply more than it writes.
- `date` clamps month and day into range and hour and minute from above, but
  lets through a day the month does not have, which then raises.
- `programgraphic` checks its ids by substring (`"" in "ABC…"` holds).

## Model

| member | source | states |
|---|---|---|
| Checksum.Chsum | sixleds/__init__.py:499-515 | the character loop yields the XOR of all character codes, as two upper-case hex digits |
| Checksum.XorAllAppend | sixleds/__init__.py:512-514 | the checksum of a concatenation is the XOR of the parts' checksums |
| Checksum.XorAllPermutation | sixleds/__init__.py:512-514 | reordering the characters of a packet does not change its XOR |
| Checksum.ChecksumPermutation | sixleds/__init__.py:512-515 | two packets with the same characters in any order get the same checksum |
| Checksum.ChecksumConcat | sixleds/__init__.py:512-515 | the checksum of `a + b` equals that of `b + a` and is built from the XORs of both parts |
| Checksum.XorAllNarrow | sixleds/__init__.py:512-514 | for characters up to 255 the XOR fits in one byte |
| Checksum.ChecksumLength | sixleds/__init__.py:515 | the checksum of such a packet is exactly two hex digits, which parse back to the XOR |
| Checksum.FrameNarrow | sixleds/__init__.py:846-851 | a frame can be written as bytes exactly when its body can |
| Checksum.Frame | sixleds/__init__.py:846 | the frame `<ID dd>` + body + checksum + `<E>`; what it promises is stated by `Checksum.FrameRoundTrip` and `Checksum.ParseFrameSound` below |
| Checksum.FrameRoundTrip | sixleds/__init__.py:846 | a frame for an address below 256 and a byte-wide body parses back to that address and body |
| Checksum.ParseFrameSound | sixleds/__init__.py:846 | whatever parses as a frame is the frame of the address and body it parses to |
| Hex.DigitValue | sixleds/__init__.py:515 | a character read as a hex digit is written back as that character |
| Hex.DigitsLength | sixleds/__init__.py:515 | a number has one hex digit iff it is below 16, at most two iff below 256 |
| Hex.Pad2Length | sixleds/__init__.py:515 | zero-filling to two digits gives exactly two iff the number is below 256 |
| Hex.ParseDigits | sixleds/__init__.py:515 | reading back the hex digits of a number gives the number |
| Hex.Pad2RoundTrip | sixleds/__init__.py:515 | reading back a zero-filled hex number gives the number |
| Hex.Pad2Canonical | sixleds/__init__.py:515 | a two-digit hex text that parses is the zero-filled text of its value |
| Transport.Respond | sixleds/__init__.py:859-880 | a write succeeds exactly when the address is the broadcast 0 or the first buffered reply is `ACK`; at most one reply is consumed, none on broadcast, and only when there was one |
| Transport.ConsumeAdd | sixleds/__init__.py:859-880 | `m` reads followed by `n` reads take the same replies as `m + n` reads |
| Transport.AcksAtMost | sixleds/__init__.py:859-880 | no more reads succeed than are made |
| Transport.BroadcastAcks | sixleds/__init__.py:868-869 | on address 0 every write succeeds and no reply is consumed |
| Transport.AllAcked | sixleds/__init__.py:871-878 | a sign that answers `ACK` to each of `n` writes makes all of them succeed |
| Transport.SilentFails | sixleds/__init__.py:871-880 | a silent sign fails every write |
| Dates.DaysInMonth | sixleds/__init__.py:105 | every month has 28 to 31 days |
| Dates.Clamp | sixleds/__init__.py:90-104 | a field is forced into its range and left alone when already in it |
| Dates.IntOf | sixleds/__init__.py:88-102 | a run of digits reads as its decimal value |
| Dates.ParseDate | sixleds/__init__.py:64-105 | an empty text gives no date; any other date read is a real calendar date in 1991-2099 |
| Dates.FieldRange | sixleds/__init__.py:88-102 | each two-character field reads as a number from -9 to 99 |
| Dates.Dec2 | sixleds/__init__.py:26 | a number below 100 is written as two digits that read back as it |
| Dates.Render | sixleds/__init__.py:17-26 | a date is always written as ten characters |
| Dates.RenderShape | sixleds/__init__.py:17-26 | a date is written as ten digits `yymmddHHMM` |
| Dates.ParseRender | sixleds/__init__.py:87-105 | reading a written date of 2000-2099 gives the date back |
| Dates.ParseNormalises | sixleds/__init__.py:87-105 | writing a date read from 2000 on and reading it again gives the same date |
| Dates.DefaultRange | sixleds/__init__.py:41 | the default start `00` is 1 January 2000 00:00, the default end `99` is 1 January 2099 |
| Dates.ParseClamps | sixleds/__init__.py:89-104 | month 13 becomes 12, day 45 becomes 31, minute 99 becomes 59 |
| Dates.ParseNoSuchDay | sixleds/__init__.py:105 | 30 February is an error, not a clamped date |
| Dates.ParseNotANumber | sixleds/__init__.py:88-89 | a field that is not a number is an error |
| Escape.Translate | sixleds/__init__.py:400 | `MM.translate(ttable)`; its properties are stated by the `Escape.Translate*` lemmas below |
| Escape.TranslateAppend | sixleds/__init__.py:400 | escaping a concatenation is the concatenation of the escaped parts |
| Escape.TranslateOne | sixleds/__init__.py:400 | a single character is replaced by its token when bound, kept otherwise |
| Escape.TranslateUnbound | sixleds/__init__.py:400 | text with no bound character is sent unchanged |
| Escape.TranslateLength | sixleds/__init__.py:400 | escaping never shortens a text, and lengthens it when any character is bound |
| Escape.TranslateFixed | sixleds/__init__.py:400 | a text goes out unchanged exactly when none of its characters is bound |
| Escape.TokenShape | sixleds/__init__.py:205-245 | a token is five ASCII characters `<U`, two upper-case hex digits naming the code, `>` |
| Translate.SixCode | sixleds/__init__.py:205-245 | every code of the advanced table is below 0x80; 0x17 and 0x28 never occur, because their characters are bound again later in the table and the last binding wins |
| Translate.FiveCode | fiveleds/__init__.py:204-244 | every code of the basic table is below 0x80; 0x00, 0x17 and 0x28 never occur, because their characters are bound again later in the table (its first slot holds ä, not €) |
| Translate.AsciiUnbound | sixleds/__init__.py:205-245 | no ASCII character is bound in either table |
| Translate.AsciiVerbatim | sixleds/__init__.py:400 | an ASCII message is sent as it is on both boards |
| Translate.SixBindings | sixleds/__init__.py:205-245 | α, ¿, ä and € are bound to 0x14, 0x3F, 0x64 and 0x00 on the advanced board |
| Translate.SixExamples | sixleds/__init__.py:205-245 | α, ¿, ä and € are escaped as `<U14>`, `<U3F>`, `<U64>` and `<U00>` on the advanced board |
| Translate.FiveExamples | fiveleds/__init__.py:204-244 | the basic board escapes α, ¿ and ä the same way but sends € as it is |
| Pages.AssignFieldOk | sixleds/__init__.py:290-293 | a validated effect setter always leaves the field empty or one letter of its alphabet |
| Pages.AssignChanges | sixleds/__init__.py:290-293 | a setter changes the field exactly when the argument is a different valid letter, and then stores it |
| Pages.AssignIdempotent | sixleds/__init__.py:290-293 | setting the same value twice is the same as once, and the second time changes nothing |
| Pages.HeaderRoundTrip | sixleds/__init__.py:400 | the effect header of a packet parses back to its four letters and the body |
| Pages.PacketHeader | sixleds/__init__.py:400 | a page packet parses back to its four effects and its escaped message |
| Pages.ParseHeaderSound | sixleds/__init__.py:400 | whatever parses as a header is written as `<F fx><M mx><W wx><F fy>` and the body |
| Pages.Page.constructor | sixleds/__init__.py:247-274 | a new page takes each valid effect, the message, and is marked modified |
| Pages.Page.LeadIn | sixleds/__init__.py:277-293 | FX takes a different valid lead-in letter and marks the page; anything else leaves both alone |
| Pages.Page.Display | sixleds/__init__.py:295-311 | MX takes a different valid display letter of the board's alphabet and marks the page |
| Pages.Page.Wait | sixleds/__init__.py:313-330 | WX takes a different valid wait letter and marks the page |
| Pages.Page.Lagging | sixleds/__init__.py:332-348 | FY takes a different valid lagging letter and marks the page |
| Pages.Page.Packet | sixleds/__init__.py:390-400 | with all four effects set, a page's packet parses back to those four effects and its escaped message |
| Pages.Page.Message | sixleds/__init__.py:350-368 | any non-empty message is stored and marks the page, even an equal one |
| Pages.Page.Modified | sixleds/__init__.py:370-388 | the flag is replaced and its old value returned |
| Schedules.PacketOf | sixleds/__init__.py:182-192 | a schedule packet is twenty digits (start, end) followed by the pages |
| Schedules.PacketRoundTrip | sixleds/__init__.py:182-192 | a schedule packet of dates in 2000-2099 parses back to its dates and pages |
| Schedules.Schedule.Packet | sixleds/__init__.py:182-192 | the packet of a dated schedule; what it promises is stated by `Schedules.PacketRoundTrip` |
| Schedules.Schedule.constructor | sixleds/__init__.py:41-62 | a new schedule holds its pages and parsed dates, active and marked |
| Schedules.Schedule.Start | sixleds/__init__.py:107-116 | the start date is replaced and the schedule marked, even if the date is unchanged |
| Schedules.Schedule.End | sixleds/__init__.py:118-127 | the end date is replaced and the schedule marked |
| Schedules.Schedule.Pages | sixleds/__init__.py:129-146 | non-empty pages are stored and mark the schedule; empty pages change nothing |
| Schedules.Schedule.Activate | sixleds/__init__.py:148-160 | the active flag takes the argument, and the schedule is marked only when it flips |
| Schedules.Schedule.Modified | sixleds/__init__.py:162-180 | the flag is replaced and its old value returned |
| StringOrder.LessIrreflexive | sixleds/__init__.py:609 | no page id sorts before itself |
| StringOrder.LessTransitive | sixleds/__init__.py:609 | the order of page ids is transitive |
| StringOrder.LessTotal | sixleds/__init__.py:609 | of two different page ids one sorts first |
| StringOrder.Sort | sixleds/__init__.py:609 | sorting keeps the number of page ids; `StringOrder.SortPermutes` and `StringOrder.SortSorted` state the order |
| StringOrder.SortPermutes | sixleds/__init__.py:609 | sorting keeps exactly the page ids of the line |
| StringOrder.SortSorted | sixleds/__init__.py:609 | sorted page ids are in ascending order |
| StringOrder.SortOrderFree | sixleds/__init__.py:609 | two lines with the same distinct page ids in any insertion order are pushed in the same order |
| Device.PageItemsMembers | sixleds/__init__.py:608-609 | the page walk of a push visits exactly the pages of every line |
| Device.PageItemsUnique | sixleds/__init__.py:608-609 | the page walk visits no page twice |
| Device.PageItemsOrderFree | sixleds/__init__.py:609 | the order pages were added to a line does not change the order they are pushed |
| Device.PickNone | sixleds/__init__.py:610 | with nothing marked and no reset, no page or schedule body is sent |
| Device.PickAll | sixleds/__init__.py:610 | on reset every body is sent, in walk order |
| Device.PickDirty | sixleds/__init__.py:610 | without reset only marked bodies are sent, one per marked object |
| Device.FramesParse | sixleds/__init__.py:846 | a push writes one frame per command, and each frame reads back as the device address and its own command, in order |
| Device.Leds.constructor | sixleds/__init__.py:403-450 | a new driver has one empty line "1", no schedules, default page `A`, nothing written |
| Device.Leds.Response | sixleds/__init__.py:859-880 | a read takes the reply the sign buffered and succeeds as `Transport.Respond` says |
| Device.Leds.Send | sixleds/__init__.py:832-857 | one frame of the packet is written and one reply read |
| Device.Leds.GetLine | sixleds/__init__.py:572-574 | the page is returned exactly when its line and id exist |
| Device.Leds.ItemsMembers | sixleds/__init__.py:607-621 | the walk of a push visits exactly the driver's pages and schedules |
| Device.Leds.ItemsUnique | sixleds/__init__.py:607-621 | the walk of a push visits no object twice |
| Device.Leds.UpdatePage | sixleds/__init__.py:531-537 | an existing page takes the message and each valid effect and is marked when any of them took; no other page changes |
| Device.Leds.InsertPage | sixleds/__init__.py:538-541 | a missing page is created with the message and the valid effects, marked, and added to its line |
| Device.Leds.AddPage | sixleds/__init__.py:538-541 | adding a page object to a line keeps the driver's invariant |
| Device.Leds.UpdateLine | sixleds/__init__.py:517-542 | an existing page is updated in place, a missing one is created; no other page changes |
| Device.Leds.UpdateSched | sixleds/__init__.py:544-570 | a new schedule is created active and marked; an existing one takes the active flag and, with pages, the pages and dates; no other schedule changes |
| Device.Leds.DefaultRunPage | sixleds/__init__.py:652-660 | a single letter A-Z becomes the default page and is sent as `<RP x>`; anything else is ignored; the current default is returned |
| Device.Leds.Brightness | sixleds/__init__.py:675-699 | a level A-D is sent as `<B x>`; the result is a further read after that |
| Device.Leds.ProgramGraphic | sixleds/__init__.py:735-830 | valid ids send `<G gid bid>` and the 64 packed bytes; invalid ids send nothing |
| Device.Leds.Commands | sixleds/__init__.py:597-646 | the commands of a push: lead-in, selected bodies in walk order, trailer; stated by `Device.Leds.PushAll`, `Device.Leds.CleanPushesFrame` and `Device.Leds.ResetPushesAll` |
| Device.Leds.CleanPushesFrame | sixleds/__init__.py:597-646 | a push without reset on a clean driver writes only the brackets |
| Device.Leds.ResetPushesAll | sixleds/__init__.py:600-612 | a reset push writes `<D*>`, the brackets and every page and schedule body in walk order |
| Device.Leds.PushPage | sixleds/__init__.py:609-618 | a page's flag is cleared, and the page is sent as `<L l><P p>` and its packet when it was marked or on reset |
| Device.Leds.PushSched | sixleds/__init__.py:621-635 | a schedule's flag is cleared and, when it was marked or on reset, it is sent as `<T id>` and its packet, or `<DT id>` when inactive |
| Device.Leds.PushAll | sixleds/__init__.py:597-646 | a push writes the lead-in, every marked (or, on reset, every) body in walk order and the trailer, and clears every flag |
| Device.Leds.PushChanges | sixleds/__init__.py:589-650 | as `PushAll`, and the configuration is saved once exactly when some body was acknowledged |
| Graphic.ColorByte | sixleds/__init__.py:717-733 | a colour sits in the top two bits of its byte |
| Graphic.PixelCode | sixleds/__init__.py:730-733 | a pixel has one of four two-bit codes |
| Graphic.ColorCode | sixleds/__init__.py:730-733 | a pixel's code is the top two bits of its colour byte |
| Graphic.ChunkLayout | sixleds/__init__.py:813-816 | a chunk ORs four colour bytes shifted by 0, 2, 4 and 6 bits |
| Graphic.ChunkPixel | sixleds/__init__.py:813-818 | pixel `k` of a chunk can be read back from bits `6 - 2k` |
| Graphic.PackChunk | sixleds/__init__.py:813-818 | the four-character loop computes the chunk of those pixels |
| Graphic.FitFrom | sixleds/__init__.py:803-808 | no more than eight blocks are counted from any block on |
| Graphic.FitFromMeans | sixleds/__init__.py:803-823 | blocks before the count fit, and the block at the count does not |
| Graphic.EncodedMeans | sixleds/__init__.py:803-823 | exactly the leading run of fitting blocks is encoded, because a failed block ends encoding |
| Graphic.ReadableBlocks | sixleds/__init__.py:803-808 | readable input encodes at most four blocks, and none with fewer than seven rows |
| Graphic.Payload | sixleds/__init__.py:759-796 | the payload is 64 bytes |
| Graphic.PayloadSlot | sixleds/__init__.py:819-820 | byte `16b + 2l + h` is half `h` of row `l` of block `b` |
| Graphic.EighthRowUntouched | sixleds/__init__.py:811 | the eighth row of each block keeps its default zero |
| Graphic.NarrowGraphic | sixleds/__init__.py:759-796 | when no block fits, the payload is the default list: 0xFF for the top row of block 0, zero elsewhere |
| Graphic.PayloadPixel | sixleds/__init__.py:810-820 | every pixel of an encoded block can be read back from its byte |
| Graphic.CheckBlock | sixleds/__init__.py:804-808 | a block fits exactly when seven rows reach past its last column |
| Graphic.EncodeBlock | sixleds/__init__.py:810-820 | encoding one block fills that block's bytes and leaves the others alone |
| Graphic.BuildPayload | sixleds/__init__.py:757-823 | the block, line and character loops build exactly the payload |
| Text.LineEnd | sixleds/__init__.py:799 | the first line ends at the first line boundary |
| Text.SplitLines | sixleds/__init__.py:799 | split lines contain no boundary, and only the empty text has no lines |
| Text.JoinSnoc | sixleds/sixleds_gui.py:292-301 | writing one more row appends it and `\r\n` |
| Text.SplitJoin | sixleds/sixleds_gui.py:292-301 | splitting text written with `\r\n` after each boundary-free row gives the rows back |
| Text.Upper | sixleds/sixleds_gui.py:79 | upper-casing works character by character and keeps the length |
| Text.UpperIdempotent | sixleds/sixleds_gui.py:79 | upper-casing twice is upper-casing once |
| ScheduleDialog.OnSend | sixleds/sixleds_gui.py:74-82 | the selected schedule exists afterwards, is active iff pages were typed, then holds them upper-cased with the typed dates; no other schedule changes |
| DisplayModes.EffectColumn | sixleds/sixleds_gui.py:934-943 | an effect key has a column exactly when it is one of A-E |
| DisplayModes.CalcDisplayMethod | sixleds/sixleds_gui.py:934-943 | the mode is always a display mode of the advanced board, and `Q` for a speed or effect outside the table |
| DisplayModes.DecodeDisplayMethod | sixleds/sixleds_gui.py:782-841 | the speed and effect are kept, or replaced by a speed 1-4 and an effect A-E |
| DisplayModes.DecodeEntry | sixleds/sixleds_gui.py:780-841 | the source reads entry `k` of row `t` as effect `k` at speed `4 - t` |
| DisplayModes.DecodeCalc | sixleds/sixleds_gui.py:780-841 | reading a computed mode gives the effect back but speed `5 - speed` |
| DisplayModes.CalcDecode | sixleds/sixleds_gui.py:780-841 | every advanced mode is recomputed from its reading only after mirroring the speed |
| DisplayModes.DecodeOther | sixleds/sixleds_gui.py:780-841 | a mode outside the table leaves speed and effect as they were |
| DisplayModes.DefaultModeMisread | sixleds/sixleds_gui.py:780-800 | the default `Q` is read as speed 3, which recomputes as `a` |
| DisplayModes.ReadDisplayMethod | sixleds/sixleds_gui.py:934-943 | the speed and effect are kept, or replaced by a speed 1-4 and an effect A-E |
| DisplayModes.ReadEntry | sixleds/sixleds_gui.py:934-943 | in the intended reading, entry `k` of row `t` is effect `k` at speed `t + 1` |
| DisplayModes.ReadCalc | sixleds/sixleds_gui.py:934-943 | reading a computed mode gives back the speed and effect it came from |
| DisplayModes.CalcRead | sixleds/sixleds_gui.py:934-943 | every advanced mode is computed from what it reads as |
| DisplayModes.DecodeMirrorsRead | sixleds/sixleds_gui.py:780-841 | the source's reading is the intended one with the speed mirrored |
| Editor.Canon | sixleds/sixleds_gui.py:274-278 | a character is kept when it is a colour code and read as off otherwise |
| Editor.RowRotations | sixleds/sixleds_gui.py:216-260 | rotating a row left undoes rotating it right, and the other way round |
| Editor.Rotations | sixleds/sixleds_gui.py:216-260 | shifting the grid left undoes shifting it right, and the other way round |
| Editor.OverlayWellFormed | sixleds/sixleds_gui.py:270-282 | reading a file keeps every cell a colour code |
| Editor.CodesNoBreaks | sixleds/sixleds_gui.py:292-301 | a written row contains no line boundary |
| Editor.ReadWritten | sixleds/sixleds_gui.py:262-301 | opening a file the editor wrote restores the grid, whatever the grid was before |
| Editor.WrittenIsProgrammable | sixleds/sixleds_gui.py:292-301 | a written grid can be programmed, and it fills exactly four blocks |
| Editor.GraphicWindow.Grid | sixleds/sixleds_gui.py:160-170 | the window is seven rows of 32 cells |
| Editor.GraphicWindow.constructor | sixleds/sixleds_gui.py:160-170 | every LED starts off |
| Editor.GraphicWindow.Fill | sixleds/sixleds_gui.py:208-214 | every cell takes the chosen code |
| Editor.GraphicWindow.RowLeft | sixleds/sixleds_gui.py:216-237 | one row is rotated a column to the left; the other rows are kept |
| Editor.GraphicWindow.RowRight | sixleds/sixleds_gui.py:239-260 | one row is rotated a column to the right; the other rows are kept |
| Editor.GraphicWindow.ShiftLeft | sixleds/sixleds_gui.py:216-237 | the grid becomes its left rotation |
| Editor.GraphicWindow.ShiftRight | sixleds/sixleds_gui.py:239-260 | the grid becomes its right rotation |
| Editor.GraphicWindow.Open | sixleds/sixleds_gui.py:262-282 | each character of each line sets the cell it lands on; cells past the text are kept |
| Editor.GraphicWindow.Compile | sixleds/sixleds_gui.py:292-301 | the text is each row followed by `\r\n` |
| Sessions.OnePageWalk | sixleds/__init__.py:608-609 | a driver with one line holding one page walks just that page |
| Sessions.DefaultEffects | sixleds/__init__.py:517 | the default effects E, Q, A, E are valid on both boards |
| Sessions.HeadText | sixleds/__init__.py:612 | the head of page `A` of line `1` with the defaults is `<L1><PA><FE><MQ><WA><FE>` |
| Sessions.HeadNarrow | fiveleds/__init__.py:692-708 | that head can be written on the basic board |
| Sessions.DefaultBody | sixleds/__init__.py:390-400 | an ASCII message is sent after that head as it is |
| Sessions.OnePageCommands | fiveleds/__init__.py:580-625 | a basic driver with that one marked page pushes exactly that body |
| Sessions.FirstPage | sixleds/__init__.py:403-450 | a fresh driver plus `updateline('A', m)` holds one marked page with the defaults and `m` |
| Sessions.AddFirst | sixleds/__init__.py:538-541 | `updateline('A', m)` on an empty line creates that page |
| Sessions.PushOnePage | fiveleds/__init__.py:580-625 | `pushchanges()` on a basic driver holding only that marked page writes its one frame |
| Sessions.FirstPageSession | fiveleds/__init__.py:580-625 | that session writes exactly one frame: address 01, the head and `m` |

## Left out

- Serial I/O: opening the port, writing bytes, polling `inWaiting` and sleeping, and `isopen`, `close` and `connected`. Writes are appended to `sent`, and replies come from the `replies` queue.
- `confput` and `confget`: the pickled configuration file is not modelled. A save is counted in `saves`. A new driver starts empty, as if no saved configuration existed.
- `show`, all logging, and `print` of invalid arguments.
- `setclock`: it reads the local clock.
- `setid`: a raw write with its own framing.
- `GetSerialPorts`, every Qt widget and pixmap, and the command-line `main`.
- The class-level dictionaries `lines` and `schedules` are shared by every driver object. Each `Device.Leds` owns its own maps.
- The `dt` and `datetime` arguments of `date`: only text is modelled.
- Dates.ParseDate: an invalid calendar date and a non-numeric field raise in the source. Here they are errors, and callers of `start`, `end`, `oschedule` and `updatesched` must pass dates that read.
- Dates.ParseDate: the 2000-based year makes years 1991-1999 (from fields `-9` to `-1`) possible. Writing such a date back does not round-trip, so ParseRender and ParseNormalises cover 2000-2099 only.
- Device.Leds.UpdateSched: updating a schedule that does not exist without pages, or with `active=False`, raises `KeyError` in the source. It is a precondition here.
- Device.Leds.UpdateLine: a line key that does not exist raises `KeyError` in the source. It is a precondition here.
- Device.Leds.PushChanges: a body with a character above 255 (advanced board) or above 127 (basic board) cannot be written and raises in the source. Likewise, an active schedule without dates raises. Both are excluded by `PushReady`.
- Device.Leds.ProgramGraphic: input that makes the source index past its rows or past the 64-byte list is excluded by `Graphic.Readable`. The basic board has no `programgraphic`.
- Dates.IntOf: only ASCII digits and ASCII white space are read. Python's `int` also takes other Unicode decimal digits and strips Unicode white space, so `date("٢٥01010000")` gives the year 2025 in the source but no number here.
- Text.Upper: only ASCII letters are upper-cased. Python's full Unicode case mapping is not modelled.
- ScheduleDialog.OnSend: the `pushchanges()` that follows and the update of the window's own schedule table are not modelled (the push is `Device.Leds.PushChanges`).
- Replies are compared as whole strings. The ASCII decoding of reply bytes is not modelled.
- `Device.Leds` holds ghost maps from each page and schedule object to its slot. These are proof devices and have no counterpart in the source.

## Findings

| source | as written | input that shows it | evidently intended | confidence | as-written member | corrected member |
|---|---|---|---|---|---|---|
| sixleds/sixleds_gui.py:780-841 | `OnPageChanged` reads modes `A`-`E` as speed 4 and `q`-`u` as speed 1, the reverse of `DISPLAY_METHOD_MATRIX` in `CalcDisplayMethod` | the default mode `Q`, computed from speed 2 and effect A, is read as speed 3; recomputing then gives `a` | the speed a mode is read as is the row of the table it sits in, so reading and computing are inverse | high, not executed | DisplayModes.DefaultModeMisread | DisplayModes.ReadCalc |
