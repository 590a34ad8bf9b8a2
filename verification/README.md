# Wolf inventory screen and log helper, modelled in Dafny

This project models two small pieces of the Wolf Armor mod.

1. **The wolf inventory screen** (`GuiWolfInventory`):
   - where the panel sits in the window;
   - the drop-chest button, both its hit test on a mouse press and its hover highlight;
   - the background badges for armor and chest;
   - the health and armor bars in the foreground layer.

   Each bar is a row-wrapped strip of 9x9 icons. Every icon stands for two points. An icon is drawn full when the stat goes past its point and half when the stat stops exactly on it.

2. **The log helper** (`LogHelper`): a holder for a logger that may be unset, its `log` overloads, and the convenience methods that fix each message's level.

Rendering is modelled as data. Every `drawTexturedModalRect` call becomes a `Draw(x, y, u, v, w, h)` descriptor, and each drawing routine returns the sequence of descriptors it would issue, in order. The mouse-press handler returns the commands it would send: `DropChest(entityId)` followed by `CloseScreen`. The log helper is a value `Helper(logger: Option<Logger>)`. Each logging call takes the output so far and returns either `Failure(NotInitialized)` or `Success` with the extended output.

Files:
- `wrappers.dfy`: `Option` and `Result`.
- `java_int.dfy`: Java's truncating integer division, plus `Min` and `Clamp`.
- `drawing.dfy`: draw descriptors and counting of sprite uses.
- `stat_bar.dfy`: the layout of one stat bar, a loop-for-loop version of the source's nested loops, and the counting lemmas.
- `wolf_inventory.dfy`: the screen itself.
- `log_helper.dfy`: the log helper.

Three consequences of the code as written, which this model keeps:
- **Slot count is a floor.** The code computes `(int) Math.min((max + 0.5F) / 2, 30)`, which for a whole `max >= 0` is `min(max / 2, 30)`. So a maximum of 1 draws no icon (`StatBar.MaximumOneDrawsNothing`), not one icon as a rounded-up count would.
- **Odd maxima lose their last point.** Because of that floor, "one half icon exactly when the total is odd and at most the maximum" fails for an odd maximum. A stat standing at an odd maximum shows no half icon (`StatBar.OddMaximumHidesLastPoint`).
- **Rows are not shifted.** The row offset enters only the sprite comparison: every row is drawn at the same x and y, so later rows overdraw earlier ones (`StatBar.BarDraws`).

## Model

| member | source | states |
|---|---|---|
| JavaInt.TruncDiv | src/main/java/dev/satyrn/wolfarmor/client/gui/GuiWolfInventory.java:78 | Java `int` division by a positive divisor: the quotient has the magnitude of `abs(a) / d` and the sign of `a`, i.e. it truncates toward zero |
| WolfInventory.OriginX | src/main/java/dev/satyrn/wolfarmor/client/gui/GuiWolfInventory.java:78 | the panel's left edge centres the panel to within one pixel; it is non-negative when the window is at least as wide as the panel |
| WolfInventory.OriginY | src/main/java/dev/satyrn/wolfarmor/client/gui/GuiWolfInventory.java:79 | the panel's top edge, centred in the same way |
| WolfInventory.MouseClicked | src/main/java/dev/satyrn/wolfarmor/client/gui/GuiWolfInventory.java:76-86 | a press sends the drop-chest command for this wolf and then closes the screen iff `8 <= mouseX - originX < 24` and `37 <= mouseY - originY < 53`; otherwise it does nothing; the mouse button and the chest flag play no part |
| WolfInventory.Background | src/main/java/dev/satyrn/wolfarmor/client/gui/GuiWolfInventory.java:137-181 | the whole panel is drawn first at the origin; the armor badge (`u = xSize`, `v = 36`, 18x18 at +7,+17) appears iff the wolf has armor; the chest badge (`v = 0`, 54x36 at +97,+17) and the button at +7,+35 appear iff it has a chest; the button's atlas row is 166 or 184 |
| WolfInventory.HoverAgreesWithClick | src/main/java/dev/satyrn/wolfarmor/client/gui/GuiWolfInventory.java:162-178 | with a chest, the button is drawn from the hover row 184 exactly when a press at the same mouse position would drop the chest |
| WolfInventory.ClickLandsOnButton | src/main/java/dev/satyrn/wolfarmor/client/gui/GuiWolfInventory.java:165-178 | every press that drops the chest lies on the drawn button picture and off the armor badge |
| WolfInventory.HealthBarY | src/main/java/dev/satyrn/wolfarmor/client/gui/GuiWolfInventory.java:205-209 | the health bar's row is 56, or 61 exactly when no armor bar is shown (armor display off or no armor) |
| WolfInventory.ArmorBarY | src/main/java/dev/satyrn/wolfarmor/client/gui/GuiWolfInventory.java:232-236 | the armor bar's row is 66, or 61 exactly when health display is off |
| WolfInventory.BarsShareTheBand | src/main/java/dev/satyrn/wolfarmor/client/gui/GuiWolfInventory.java:198-236 | a bar shown alone sits on row 61; two bars sit one icon plus one pixel apart, health above armor |
| WolfInventory.HealthDraws | src/main/java/dev/satyrn/wolfarmor/client/gui/GuiWolfInventory.java:198-229 | every blit of the health bar lies on the health row, and there is none when health display is off |
| WolfInventory.ArmorDraws | src/main/java/dev/satyrn/wolfarmor/client/gui/GuiWolfInventory.java:231-260 | every blit of the armor bar lies on the armor row, and there is none unless armor display is on and the wolf wears armor |
| WolfInventory.HealthAndArmor | src/main/java/dev/satyrn/wolfarmor/client/gui/GuiWolfInventory.java:191-263 | the blits of the health part come first and lie on the health row; every later blit lies on the armor row |
| WolfInventory.HealthAndArmorRows | src/main/java/dev/satyrn/wolfarmor/client/gui/GuiWolfInventory.java:191-263 | the two bars are the health bar's blits followed by the armor bar's, each on its own row |
| WolfInventory.HealthCounts | src/main/java/dev/satyrn/wolfarmor/client/gui/GuiWolfInventory.java:198-229 | the health part of the two bars draws one heart background per health slot and `health / 2` full hearts, clamped to the slots, only when health display is on; the armor bar adds no hearts |
| WolfInventory.ArmorCounts | src/main/java/dev/satyrn/wolfarmor/client/gui/GuiWolfInventory.java:231-260 | the armor bar draws one background per armor slot and `armor / 2` full icons, clamped, only when armor display is on and the wolf has armor; the health bar adds no armor icons |
| WolfInventory.HealthAloneWhenArmorDisplayOff | src/main/java/dev/satyrn/wolfarmor/client/gui/GuiWolfInventory.java:198-236 | armor display off with 6 of 10 health: the health bar alone on row 61, five hearts of which three are full, and no armor icons |
| StatBar.SlotCount | src/main/java/dev/satyrn/wolfarmor/client/gui/GuiWolfInventory.java:203 | the truncated, capped `(max + 0.5) / 2` equals `min(max / 2, 30)` for every `max >= 0` and is never positive for a negative maximum |
| StatBar.Drawn | src/main/java/dev/satyrn/wolfarmor/client/gui/GuiWolfInventory.java:211 | the number of icons the row loop draws is at most 30 and is `min(max / 2, 30)` for `max >= 0` |
| StatBar.RowSlotsAt | src/main/java/dev/satyrn/wolfarmor/client/gui/GuiWolfInventory.java:215 | a row of `len` icons visits columns `len - 1` down to 0: position `p` holds column `len - 1 - p` |
| StatBar.SlotsFrom | src/main/java/dev/satyrn/wolfarmor/client/gui/GuiWolfInventory.java:211-213 | the rows drawn for `remaining` icons hold exactly `remaining` slots |
| StatBar.SlotsFromAt | src/main/java/dev/satyrn/wolfarmor/client/gui/GuiWolfInventory.java:211-216 | slot `p` in drawing order lies in row `p / 10`, compares with offset `20 * (p / 10)`, and sits in column `rowLen - 1 - p % 10`, where `rowLen` is what remains, at most 10 |
| StatBar.SlotDraws | src/main/java/dev/satyrn/wolfarmor/client/gui/GuiWolfInventory.java:216-218 | a slot draws one or two sprites, and the first is always its background sprite at `xSize / 2 + 8 * col - 4` on the bar's row |
| StatBar.SlotSprites | src/main/java/dev/satyrn/wolfarmor/client/gui/GuiWolfInventory.java:216-226 | all of a slot's sprites sit in its column on the bar's row and come from the bar's three sprites; the background appears once, the full sprite iff `2 * col + 1 + offset < total`, the half sprite iff it equals `total`, and never both |
| StatBar.BarDraws | src/main/java/dev/satyrn/wolfarmor/client/gui/GuiWolfInventory.java:211-228 | every blit of one bar sits on the bar's row `y`, in one of the ten first-row columns, whatever its row: later rows overdraw earlier ones (the armor bar's loops at lines 242-259 are the same with the armor sprites) |
| StatBar.BarCounts | src/main/java/dev/satyrn/wolfarmor/client/gui/GuiWolfInventory.java:211-227 | a bar draws exactly `Drawn(max)` backgrounds and `total / 2` full icons, clamped to `[0, Drawn(max)]`; it draws one half icon iff `total` is odd and `(total - 1) / 2` is a drawn slot, and none otherwise |
| StatBar.NineteenOfTwenty | src/main/java/dev/satyrn/wolfarmor/client/gui/GuiWolfInventory.java:211-226 | 19 of 20 health draws 10 heart backgrounds, 9 full hearts and 1 half heart |
| StatBar.TwentyOfTwenty | src/main/java/dev/satyrn/wolfarmor/client/gui/GuiWolfInventory.java:211-226 | 20 of 20 health draws 10 full hearts and no half heart |
| StatBar.MaximumOneDrawsNothing | src/main/java/dev/satyrn/wolfarmor/client/gui/GuiWolfInventory.java:203 | a maximum of 1 gives no icon at all |
| StatBar.OddMaximumHidesLastPoint | src/main/java/dev/satyrn/wolfarmor/client/gui/GuiWolfInventory.java:203-226 | a stat at any odd maximum shows every drawn slot full and no half icon: its last point is not displayed (above 60 the cap of 30 icons hides further points too) |
| StatBar.DrawRow | src/main/java/dev/satyrn/wolfarmor/client/gui/GuiWolfInventory.java:215-227 | the inner loop emits exactly the row's layout, one background per column |
| StatBar.DrawStatBar | src/main/java/dev/satyrn/wolfarmor/client/gui/GuiWolfInventory.java:211-228 | the nested row loops emit exactly the bar's layout, with one background per drawn slot |
| LogHelper.NewHelper | src/main/java/dev/satyrn/wolfarmor/util/LogHelper.java:16 | a helper built without a logger throws "Logger has not been initialized" on every log call |
| LogHelper.HelperFor | src/main/java/dev/satyrn/wolfarmor/util/LogHelper.java:21-23 | a helper built with a logger holds that logger |
| LogHelper.InitializeLogger | src/main/java/dev/satyrn/wolfarmor/util/LogHelper.java:26-28 | the stored logger is replaced unconditionally; a null logger is stored too |
| LogHelper.ReinitializeRedirects | src/main/java/dev/satyrn/wolfarmor/util/LogHelper.java:26-41 | after re-initialisation every record goes to the new logger, whatever was held before; after a null logger, logging throws again |
| LogHelper.Log | src/main/java/dev/satyrn/wolfarmor/util/LogHelper.java:36-42 | with no logger the call throws the "not initialized" exception and logs nothing; otherwise exactly one record `(level, message)` is appended and earlier output is untouched |
| LogHelper.LogObject | src/main/java/dev/satyrn/wolfarmor/util/LogHelper.java:75-77 | an object is logged as one record holding its `toString()` text |
| LogHelper.LogFrames | src/main/java/dev/satyrn/wolfarmor/util/LogHelper.java:64-66 | the stack-trace loop appends one record per frame, at the stack-trace level, in frame order |
| LogHelper.LogThrowableAt | src/main/java/dev/satyrn/wolfarmor/util/LogHelper.java:61-67 | the message is logged at `level`, then each frame at `stackTraceLevel`: `1 + n` records; without a logger the first record throws and no frame is logged |
| LogHelper.LogThrowable | src/main/java/dev/satyrn/wolfarmor/util/LogHelper.java:50-52 | the two-argument form is the three-argument form with the same level twice, so every record it adds is at that level |
| LogHelper.InfoMessage | src/main/java/dev/satyrn/wolfarmor/util/LogHelper.java:84-86 | one INFO record with the message unchanged, or the "not initialized" failure |
| LogHelper.WarningMessage | src/main/java/dev/satyrn/wolfarmor/util/LogHelper.java:93-95 | one WARN record with the message unchanged, or the failure |
| LogHelper.WarningException | src/main/java/dev/satyrn/wolfarmor/util/LogHelper.java:102-104 | the exception message at WARN, then every frame at DEBUG, or the failure with nothing logged |
| LogHelper.ErrorMessage | src/main/java/dev/satyrn/wolfarmor/util/LogHelper.java:111-113 | one ERROR record with the message unchanged, or the failure |
| LogHelper.ErrorException | src/main/java/dev/satyrn/wolfarmor/util/LogHelper.java:120-122 | the exception message at ERROR, then every frame at DEBUG, or the failure |
| LogHelper.FatalMessage | src/main/java/dev/satyrn/wolfarmor/util/LogHelper.java:129-131 | one FATAL record with the message unchanged, or the failure |
| LogHelper.FatalThrowable | src/main/java/dev/satyrn/wolfarmor/util/LogHelper.java:138-140 | the throwable's message at FATAL, then every frame at DEBUG, or the failure |
| LogHelper.DebugMessage | src/main/java/dev/satyrn/wolfarmor/util/LogHelper.java:147-149 | one DEBUG record with the message unchanged, or the failure |
| LogHelper.DebugObject | src/main/java/dev/satyrn/wolfarmor/util/LogHelper.java:156-158 | one DEBUG record holding the object's text, or the failure |
| LogHelper.TraceMessage | src/main/java/dev/satyrn/wolfarmor/util/LogHelper.java:165-167 | one TRACE record with the message unchanged, or the failure |
| LogHelper.TraceObject | src/main/java/dev/satyrn/wolfarmor/util/LogHelper.java:174-176 | one TRACE record holding the object's text, or the failure |

## Left out

- **Render state.** OpenGL state (`GlStateManager` push, pop and colour) and texture binding are host rendering state. Draws are returned as descriptors against whichever atlas the source binds.
- **Entity preview.** `GuiInventory.drawEntityOnScreen` and the `screenPositionX/Y` fields set in `drawScreen` feed floating-point entity rendering; `drawScreen` and `renderHoveredToolTip` are not modelled.
- **Labels.** The foreground labels (`fontRenderer.drawString`, `I18n.format`, custom-name choice) are text rendering and localisation; only the bars of `drawGuiContainerForegroundLayer` are modelled.
- **Framework calls.** The container set-up in the constructor belongs to the game framework. So does the `super.mouseClicked` slot handling, which runs on every press before the button test; whether it also acts on a press over the button is its own affair. The network send and `closeScreen` are returned as commands, not executed.
- **Floating-point stats.** `Math.ceil(getHealth())` and the float maximum health are taken as given integers (`Wolf.health`, `Wolf.maxHealth`). `MAX_VANILLA_ARMOR_VALUE` is the parameter `maxArmor`. The float value `(max + 0.5F) / 2` is exact while `|max|` stays below 2^23, and the model computes that exact value. Beyond that bound Java's rounding cannot change what is drawn: above it the count is capped at 30, below its negative the count is not positive and nothing is drawn. So `StatBar.Drawn` matches the number of icons Java draws for every whole maximum. Only `StatBar.SlotCount`'s own value can differ, and only below -2^23, where nothing is drawn either way.
- **32-bit overflow.** Java `int` wrap-around of screen and mouse coordinates is not modelled, because window coordinates stay far below 2^31.
- **Logging library internals.** Level filtering, appenders and formatting are left out: a logger is an append-only sequence of records. A null exception message, which the logging library prints as "null", is not distinguished from a string.
- **Stack capture.** How a `Throwable` records its stack is left out; a stack frame is the text its `toString()` returns.
