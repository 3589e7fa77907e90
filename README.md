# ESP32 HomeKit LED strip: a Dafny model of the light controller

The firmware drives one strand of RGBW LEDs and exposes it as a HomeKit lightbulb.
It keeps four values in globals: on/off, hue, saturation and brightness. They start at off, 0, 59 and 100.
Each of the four characteristic setters checks the format of the incoming HomeKit value.
A value in the wrong format is silently dropped.
A value in the right format updates its own global, and the strip is then re-rendered.
Re-rendering converts the HSI request to RGBW with `hsi2rgbw`, or uses black when the light is off.
It writes that colour into every pixel of the buffer and hands the buffer to the strip driver.
The identify handler blinks the whole strip white/black three times in groups of two pulses.
It then writes full white or black according to the stored on/off value.

The model has four modules:

- `Color` (`color.dfy`): `hsi2rgbw` over `real`. It clamps S and I to [0, 1] and wraps the hue with C's `fmod`, whose result keeps the argument's sign. It converts the hue to radians with the firmware's value 3.14159 for pi. It then picks one of three sectors by comparing the angle with the firmware's sector starts 2.09439 and 4.188787, switches that sector's third colour off and computes the white channel. The last step converts each channel to `int` by truncating toward zero, as C's float-to-int conversion does. The trigonometric ratio `cos(h)/cos(1.047196667 - h)` is a parameter `ratio: real -> real`, so the facts proved hold for any ratio. Facts that need bounds on it take them as preconditions.
- `HomeKit` (`homekit.dfy`): the characteristic value as the firmware reads it. It has a format tag plus `bool_value`, `int_value` and `float_value`.
- `Strip` (`strip.dfy`): the pixel buffer as an `array<Pixel>` and the uniform fill loop shared by `led_string_set` and `led_write`. It also holds the sequence of buffers a run of `led_write` calls hands to the driver.
- `Light` (`light.dfy`): the globals as a `LightState` value together with the specification functions `Update`, `Read` and `Render`. The class `LightAccessory` holds the globals as fields, the pixel buffer and the log of transmitted frames. Its setters, getters and `Identify` method are proved against those functions.

The strip driver's transmit call (`digitalLeds_updatePixels`) is modelled only by the frame it receives: `LightAccessory.frames` records every buffer handed to it, in order.

## Model

The lemmas on products of bounded reals (`MulBounded`, `ProductUpper`, `NearProduct` and their kin), `TruncNearByte` and the `ThirdShare` factor `S*255*I/3` are proof helpers for the range lemmas below and have no row of their own.

| member | source | states |
|---|---|---|
| Color.Trunc | examples/esp32/demo2/main/main.c:140-159 | float-to-int conversion truncates toward zero: for x >= 0 it is floor(x), in [0, x]; for x <= 0 it lies in [x, 0] within one unit |
| Color.Clamp01 | examples/esp32/demo2/main/main.c:134-135 | the result lies in [0, 1]; it is the input inside [0, 1], 0 below and 1 above |
| Color.FMod360 | examples/esp32/demo2/main/main.c:130 | fmod(h, 360) differs from h by a whole multiple of 360; it lies in [0, 360) for h >= 0 and in (-360, 0] for h <= 0; it leaves h in [0, 360) unchanged |
| Color.HueRadians | examples/esp32/demo2/main/main.c:130-131 | the wrapped hue in radians lies in [0, 6.28318) for a non-negative hue and is at most 0 for a non-positive one |
| Color.SectorAngle | examples/esp32/demo2/main/main.c:137-155 | for an angle in [0, 6.28318) the angle from the start of its sector lies in [0, 2.094397) |
| Color.RawMix | examples/esp32/demo2/main/main.c:137-160 | before truncation blue is 0 in the first sector, red in the second and green in the third; white is 255*(1-S)*I in every sector |
| Color.Hsi2Rgbw | examples/esp32/demo2/main/main.c:127-166 | the output has blue 0 in the first sector, red 0 in the second and green 0 in the third, and white is trunc(255*(1-S)*I) with S and I clamped |
| Color.RawMixBrightness | examples/esp32/demo2/main/main.c:137-160 | for any ratio q, the colour channels before truncation sum to S*255*I, and adding white gives exactly 255*I |
| Color.ConstantBrightness | examples/esp32/demo2/main/main.c:119-122 | the constant-brightness claim for the whole conversion: colour sum S*255*I and total 255*I, with the clamped S and I, for every hue and ratio |
| Color.ZeroIntensityIsBlack | examples/esp32/demo2/main/main.c:132-160 | an intensity that clamps to 0 gives (0,0,0,0) whatever the hue, saturation and ratio |
| Color.ZeroSaturationIsWhiteOnly | examples/esp32/demo2/main/main.c:132-160 | a saturation that clamps to 0 gives r = g = b = 0 and w = floor(255*I) |
| Color.WhiteIgnoresHue | examples/esp32/demo2/main/main.c:143-159 | the white channel is the same for every hue and every ratio: trunc(255*(1-S)*I) |
| Color.SectorAngleRange | examples/esp32/demo2/main/main.c:130-155 | for a non-negative hue the angle passed to the ratio lies in [0, 2.094397) |
| Color.NegativeHueStaysNegative | examples/esp32/demo2/main/main.c:130-139 | a hue in (-360, 0) is not wrapped: it selects the first sector with a negative angle |
| Color.RawMixInRange | examples/esp32/demo2/main/main.c:137-160 | with S, I in [0, 1] and the ratio in [-1, 2], every raw channel lies in [0, 255] |
| Color.RawMixNearRange | examples/esp32/demo2/main/main.c:137-160 | with S, I in [0, 1] and the ratio in [-1.01, 2.01], every raw colour channel lies strictly between -1 and 256 and white lies in [0, 255] |
| Color.ChannelsInRange | examples/esp32/demo2/main/main.c:132-165 | whenever the ratio at the sector angle is in [-1.01, 2.01], which holds for every hue in [0, 360), all four output channels are in [0, 255]; C's truncation maps each raw channel, which lies strictly between -1 and 256, into [0, 255] |
| Color.TotalNearIntensity | examples/esp32/demo2/main/main.c:140-159 | under the same bound the four integer channels add up to more than 255*I - 3 and less than 255*I + 1; with the ratio in [-1, 2] the sum is never above 255*I |
| HomeKit.BoolValue | examples/esp32/demo2/main/main.c:215 | HOMEKIT_BOOL builds a bool-format value carrying the given bool |
| HomeKit.IntValue | examples/esp32/demo2/main/main.c:229 | HOMEKIT_INT builds an int-format value carrying the given int |
| HomeKit.FloatValue | examples/esp32/demo2/main/main.c:241 | HOMEKIT_FLOAT builds a float-format value carrying the given real |
| Color.HuePeriodic | examples/esp32/demo2/main/main.c:130 | for h >= 0 and any natural k, hue h + 360k gives the same colour as h |
| Color.NegativeHuePeriodic | examples/esp32/demo2/main/main.c:130 | for h <= 0 and any natural k, hue h - 360k gives the same colour as h, since fmod keeps the sign on both |
| Color.InitialColour | examples/esp32/demo2/main/main.c:127-165 | hue 0, saturation 59, brightness 100 with a ratio within 0.001 of 2 gives (150, 0, 0, 104); the near-zero raw green truncates to 0 |
| Strip.Uniform | examples/esp32/demo2/main/main.c:178-180 | the uniform strip has n slots, each holding the given colour |
| Strip.LevelColor | examples/esp32/demo2/main/main.c:187 | led_write's colour has all four channels 255 when on and all four 0 when off |
| Strip.Fill | examples/esp32/demo2/main/main.c:178-188 | after the loop the buffer is exactly n copies of the colour, and nothing outside the buffer is modified; with 0 pixels nothing changes |
| Strip.WriteFrames | examples/esp32/demo2/main/main.c:184-190 | a run of led_write calls hands the driver one frame per call, frame k being all 255 or all 0 by the k-th level |
| Light.Read | examples/esp32/demo2/main/main.c:214-255 | each getter returns a value in its characteristic's format (bool, int, float, float) |
| Light.Update | examples/esp32/demo2/main/main.c:218-264 | a wrong-format value leaves the state unchanged; a set changes no field but its own; reading back the characteristic gives the value written, bool, int or float; a brightness set stores exactly the float of the int written |
| Light.Render | examples/esp32/demo2/main/main.c:168-174 | when off the colour is (0,0,0,0) regardless of hue, saturation and brightness; when on it is hsi2rgbw of the three |
| Light.InitialRender | examples/esp32/demo2/main/main.c:63-66 | the boot state renders black, and switching it on renders (150, 0, 0, 104) |
| Light.PulsesAlternate | examples/esp32/demo2/main/main.c:194-199 | n inner-loop pulses write on, off, on, off, ... (2n writes) |
| Light.BlinkAlternates | examples/esp32/demo2/main/main.c:193-202 | the groups of pulses together still alternate on, off starting with on |
| Light.IdentifyWrites | examples/esp32/demo2/main/main.c:192-204 | identify issues 13 writes: on, off alternating twelve times, then the stored on/off level |
| Light.LightAccessory.constructor | examples/esp32/demo2/main/main.c:62-66 | the accessory boots with on = false, hue 0, saturation 59, brightness 100 and no frame sent |
| Light.LightAccessory.Transmit | examples/esp32/demo2/main/main.c:181 | the driver receives the current buffer |
| Light.LightAccessory.StringSet | examples/esp32/demo2/main/main.c:168-182 | every pixel gets Render of the current state, the buffer is transmitted once, and the four fields stay as they were |
| Light.LightAccessory.Write | examples/esp32/demo2/main/main.c:184-190 | every pixel becomes all 255 or all 0 and that buffer is transmitted |
| Light.LightAccessory.SetOn | examples/esp32/demo2/main/main.c:218-226 | the new state is Update(old state, On, v); a bool value re-renders and reads back; another format touches neither buffer nor frames |
| Light.LightAccessory.SetBrightness | examples/esp32/demo2/main/main.c:231-238 | as SetOn for an int value, stored as a float |
| Light.LightAccessory.SetHue | examples/esp32/demo2/main/main.c:244-251 | as SetOn for a float hue |
| Light.LightAccessory.SetSaturation | examples/esp32/demo2/main/main.c:257-264 | as SetOn for a float saturation |
| Light.LightAccessory.GetOn | examples/esp32/demo2/main/main.c:214-216 | returns Read of the state for On: a bool value carrying led_on |
| Light.LightAccessory.GetBrightness | examples/esp32/demo2/main/main.c:228-230 | returns Read of the state for Brightness: an int value carrying the truncated float |
| Light.LightAccessory.GetHue | examples/esp32/demo2/main/main.c:240-242 | returns Read of the state for Hue: a float value carrying led_hue |
| Light.LightAccessory.GetSaturation | examples/esp32/demo2/main/main.c:253-255 | returns Read of the state for Saturation: a float value carrying led_saturation |
| Light.LightAccessory.LoggedWrite | examples/esp32/demo2/main/main.c:195-204 | one led_write call inside identify: the frame log grows by that write's uniform frame and the buffer holds its level |
| Light.LightAccessory.Identify | examples/esp32/demo2/main/main.c:192-207 | the frames sent are those of the 13 identify writes in order, and the final buffer is all white if on and all black if off, not the stored colour |

## Left out

- Wi-Fi bring-up, the event handler, NVS initialisation and `app_main` are platform I/O.
- GPIO setup, `millis`, `delay`, `vTaskDelay` and `vTaskDelete` are hardware and RTOS calls. The identify blink keeps only the order of its writes, not their timing.
- `led_identify` only starts a task with `xTaskCreate`. The task body is `LightAccessory.Identify`. Its concurrency with the setters is not modelled: `Identify` runs as one uninterrupted call.
- `digitalLeds_initStrands` and `digitalLeds_updatePixels` are calls into the strip library. Transmission is modelled only as recording the buffer handed over. The buffer's contents after initialisation are unspecified in the model.
- The accessory table, the server configuration and `homekit_server_init` are library configuration. The HomeKit value's `is_null` flag and its other payload kinds are not modelled. Its payload is three separate fields rather than a C union.
- Floating point: every computation is over exact reals. The float rounding of `fmod`, of the degree-to-radian conversion and of the channel arithmetic is not modelled. Comparisons at a sector boundary may therefore come out differently on the device.
- Color.Hsi2Rgbw: `cos` is not modelled. The ratio `cos(h)/cos(1.047196667 - h)` is the parameter `ratio`, and any bound a lemma needs on it is a precondition. On [0, 2.094397) the true ratio runs from about 2 down to just below -1: past 2.0943947 it reaches about -1.0000083. `Color.RatioMin` and `Color.RatioMax` (-1.01 and 2.01) bound it with margin.
- Color.Trunc: a float-to-int conversion whose result does not fit in `int` is undefined in C. The model gives it an unbounded integer.
- Light.LightState: the firmware's globals are 32-bit floats and `int_value` is a C `int`. The model uses `real` and `int`, so it does not capture an `int_value` too large to convert exactly to float.
- The narrowing of `int` channels into the pixel type's fields is not modelled: the pixel type's definition is not part of this model. `Color.ChannelsInRange` states when no narrowing can occur.
- Hue periodicity: the comment at line 130 says the hue is cycled into 0-360, but for a negative hue it is not. `fmod` keeps the sign, so a hue in (-360, 0) takes the first sector with a negative angle (`Color.NegativeHueStaysNegative`). Periodicity therefore fails only between hues on opposite sides of 0: it holds among non-negative hues (`Color.HuePeriodic`) and among non-positive hues (`Color.NegativeHuePeriodic`). The model follows the code. HomeKit only sends hues in [0, 360].
- The `uint16_t` loop counter of both fill loops would never reach a pixel count above 65535. The model requires at most 65535 pixels (`Strip.MaxPixels`); the firmware configures 300.
- A perceptually shaped intensity (intensity to the power 1.5) is not used by this firmware, which scales intensity linearly; only the linear form is modelled.
- The `printf` logging in `led_string_set` (lines 175-176) and `led_identify` (line 210) is console output and is not modelled.
