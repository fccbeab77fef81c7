# s2e-core core logic in Dafny

This project models five pieces of the s2e-core spacecraft simulator and proves properties about them.

- **GNSS constellation windows** (`gnss_satellites.dfy`, module `GnssConstellation`).
  - The simulator holds a chain of one-day SP3 precise-ephemeris files.
  - It selects the file whose day contains the start time.
  - It centres a nine-epoch window on the epoch nearest that time.
  - It seeds one orbit window and one clock window per satellite.
  - Once simulated time passes the middle sample, `Update` slides the windows of the first 32 satellites forward by one epoch. Any further windows keep their seeded samples. When a file runs out, the next epoch is the first epoch of the next file.
  - Position and clock queries interpolate in the window. Untracked ids and out-of-window times return sentinel answers.
  - Files, epochs and times are values. The manager is a class whose methods update its fields, with loops where the source loops.
- **I2C register port** (`i2c_port.dfy`, module `I2cRegisters`).
  - A map from (device address, register address) to bytes.
  - One shared register pointer that sequential reads advance, wrapping at the register count.
- **OBC port registry** (`on_board_computer.dfy`, module `OnBoardComputer`).
  - The on-board computer's three tables of UART, I2C and GPIO ports.
  - Their connect and close return codes.
  - The guards of the data calls on an unconnected id.
- **Controlled attitude** (`controlled_attitude.dfy`, module `ControlledAttitudes`).
  - The mode names.
  - The checks that decide whether the attitude calculation stays enabled.
  - The early exits of a propagation step.
  - The previous-step bookkeeping behind the angular velocity.
- **Vector arithmetic** (`vector_math.dfy`, module `VectorMath`).
  - The component-wise operators of `libra::Vector` over exact reals.
  - In-place operators work on an `array<real>`. Operators that return a new vector take and return `seq<real>` and build the result in a local array.

`wrappers.dfy` holds the `Option` type used for lookups that can fail.

Two facts about the GNSS queries and their reference epoch:
- `reference_time_` is set only in `Initialize` (gnss_satellites.cpp:38). `Update` never moves it, even when the epoch index resets in a new file, and neither does the model.
- The satellite-id guard of the GNSS queries is `>` in the code (gnss_satellites.cpp:114, 132). The getters `GetPositionEcefM` and `GetClockS` use `>=`. The guard as written is modelled by `PositionAsWritten` and `ClockAsWritten` (see Findings).

## Model

Source paths are relative to the repository root.

| member | source | states |
|---|---|---|
| `VectorMath.FillConstruct` | src/library/math/vector_template_functions.hpp:13-18 | The fill constructor returns a fresh vector whose every component is `n`. |
| `VectorMath.FillUp` | src/library/math/vector_template_functions.hpp:56-61 | After `FillUp(v, n)` every component of `v` is `n`. |
| `VectorMath.AddAssign` | src/library/math/vector_template_functions.hpp:20-26 | `v += w` leaves the component-wise sum of the old values in `v`. `w` is unchanged unless it is `v` itself. |
| `VectorMath.SubAssign` | src/library/math/vector_template_functions.hpp:28-34 | `v -= w` leaves the component-wise difference in `v`. `w` is unchanged unless it is `v` itself. |
| `VectorMath.ScaleAssign` | src/library/math/vector_template_functions.hpp:36-42 | `v *= n` multiplies every component by `n`. |
| `VectorMath.DivAssign` | src/library/math/vector_template_functions.hpp:44-47 | `v /= n` is `v *= 1/n`, and multiplying the result by `n` gives the old vector back. |
| `VectorMath.Negated` | src/library/math/vector_template_functions.hpp:49-54 | Unary minus is scaling by -1, and adding it to the vector gives the zero vector. |
| `VectorMath.Plus` | src/library/math/vector_template_functions.hpp:71-78 | Binary `+` is the component-wise sum, and subtracting `rhs` from it gives `lhs` back. |
| `VectorMath.Minus` | src/library/math/vector_template_functions.hpp:80-87 | Binary `-` is the component-wise difference, and adding `rhs` to it gives `lhs` back. |
| `VectorMath.Times` | src/library/math/vector_template_functions.hpp:89-96 | Scalar `*` multiplies every component of `rhs` by `lhs`. |
| `VectorMath.InnerProduct` | src/library/math/vector_template_functions.hpp:98-105 | The loop computes the sum of component-wise products, which is the same with the arguments swapped. |
| `VectorMath.SubUndoesAdd` | src/library/math/vector_template_functions.hpp:20-34 | Subtracting a vector undoes adding it. |
| `VectorMath.ScaleByInverse` | src/library/math/vector_template_functions.hpp:44-47 | Scaling by `1/n` and then by `n` is the identity for `n != 0`. |
| `VectorMath.DotSymmetric` | src/library/math/vector_template_functions.hpp:98-105 | The inner product is symmetric. |
| `VectorMath.DotScaleLeft` | src/library/math/vector_template_functions.hpp:98-105 | A scalar factor on one argument comes out of the inner product. |
| `VectorMath.CrossAntiCommutative` | src/library/math/vector_template_functions.hpp:107-114 | Swapping the arguments of the outer (cross) product negates it. |
| `VectorMath.Cross` | src/library/math/vector_template_functions.hpp:107-114 | The outer product of two 3-vectors is a 3-vector orthogonal to both of its arguments. |
| `VectorMath.SelfDotZero` | src/library/math/vector_template_functions.hpp:125-130 | The squared norm is non-negative and is zero exactly for the zero vector, which is the case the zero guard catches. |
| `VectorMath.NormalizedHasUnitLength` | src/library/math/vector_template_functions.hpp:132-135 | Scaling a non-zero vector by the inverse of its norm gives a unit vector. |
| `VectorMath.Normalized` | src/library/math/vector_template_functions.hpp:125-138 | A zero-norm vector (which is the zero vector) stays as it is; any other result has unit length. |
| `VectorMath.Normalize` | src/library/math/vector_template_functions.hpp:125-138 | In place: a zero-norm vector is left unchanged; otherwise `v` becomes `v / norm` and has unit length. |
| `I2cRegisters.Increment` | src/Interface/SpacecraftInOut/Ports/I2CPort.cpp:52 | The unsigned-char increment wraps 255 to 0. |
| `I2cRegisters.NextPointer` | src/Interface/SpacecraftInOut/Ports/I2CPort.cpp:52-53 | After a sequential read the pointer is below the register count or 0. It moves up by one below the top and wraps to 0 at the top. |
| `I2cRegisters.PointerAfterCounts` | src/Interface/SpacecraftInOut/Ports/I2CPort.cpp:49-55 | Below the wrap point, `k` sequential reads move the pointer up by exactly `k`. |
| `I2cRegisters.PointerAfterCompose` | src/Interface/SpacecraftInOut/Ports/I2CPort.cpp:49-55 | `j + k` sequential reads are `j` reads followed by `k` reads. |
| `I2cRegisters.PointerReturns` | src/Interface/SpacecraftInOut/Ports/I2CPort.cpp:49-55 | As many sequential reads as there are registers bring the pointer back to where it started. |
| `I2cRegisters.DeviceKeys` | src/Interface/SpacecraftInOut/Ports/I2CPort.cpp:12-18 | The keys `RegisterDevice` writes are exactly registers `0 .. max-1` of that device. |
| `I2cRegisters.DefaultInserted` | src/Interface/SpacecraftInOut/Ports/I2CPort.cpp:51 | A map lookup inserts a missing key with value 0 and changes no other entry. |
| `I2cRegisters.I2CPort.Register` | src/Interface/SpacecraftInOut/Ports/I2CPort.cpp:57-63 | A register never written reads as 0. |
| `I2cRegisters.I2CPort.constructor` | src/Interface/SpacecraftInOut/Ports/I2CPort.cpp:7-10 | A new port has the given register count, no registers and pointer 0. |
| `I2cRegisters.I2CPort.RegisterDevice` | src/Interface/SpacecraftInOut/Ports/I2CPort.cpp:12-18 | Registers `0 .. max-1` of the device become 0. All other entries and the pointer are unchanged. |
| `I2cRegisters.I2CPort.WriteRegisterPointer` | src/Interface/SpacecraftInOut/Ports/I2CPort.cpp:20-25 | An out-of-range register returns 0 and changes nothing. Otherwise the pointer is set and the result is 1. Register data never changes. |
| `I2cRegisters.I2CPort.WriteRegister` | src/Interface/SpacecraftInOut/Ports/I2CPort.cpp:27-33 | An out-of-range register returns 0 and changes nothing. Otherwise the value is stored at that key only, the pointer is set, and the result is 1. |
| `I2cRegisters.I2CPort.ReadRegisterNext` | src/Interface/SpacecraftInOut/Ports/I2CPort.cpp:49-55 | Returns the register under the pointer (0 if never written, with the key default-inserted), then advances the pointer with wrap-around. |
| `I2cRegisters.I2CPort.ReadRegister` | src/Interface/SpacecraftInOut/Ports/I2CPort.cpp:57-63 | An out-of-range register reads 0 without moving the pointer. Otherwise it returns the stored byte and points at that register without incrementing. |
| `I2cRegisters.I2CPort.WriteThenRead` | src/Interface/SpacecraftInOut/Ports/I2CPort.cpp:27-63 | A property derived from two source calls, not a source function. Writing `v` to an in-range register and reading it back returns `v`. Out of range, both calls report 0. |
| `OnBoardComputer.Touch` | src/components/real/cdh/on_board_computer.cpp:26 | A map lookup of an absent id inserts a null entry, which leaves the set of live ports unchanged. |
| `OnBoardComputer.TouchThenSet` | src/components/real/cdh/on_board_computer.cpp:26-30 | Assigning after the null-inserting lookup is the same as assigning directly. |
| `OnBoardComputer.Connect` | src/components/real/cdh/on_board_computer.cpp:25-32 | Connect returns -1 exactly when the id already has a live port and 0 exactly when it had none. Afterwards the id is connected. |
| `OnBoardComputer.Close` | src/components/real/cdh/on_board_computer.cpp:35-43 | Close returns -1 exactly when the id has no live port and 0 exactly when it had one. Afterwards the id is not connected. |
| `OnBoardComputer.ConnectKeepsExisting` | src/components/real/cdh/on_board_computer.cpp:25-29 | Connecting a live id returns -1 and keeps the existing port. |
| `OnBoardComputer.ConnectAddsOne` | src/components/real/cdh/on_board_computer.cpp:30-31 | Connecting a free id adds exactly that port to the live ports. |
| `OnBoardComputer.CloseRemovesOne` | src/components/real/cdh/on_board_computer.cpp:35-43 | Closing removes that id, and only that id, from the live ports. |
| `OnBoardComputer.CloseThenConnect` | src/components/real/cdh/on_board_computer.cpp:25-43 | After a successful close, a connect on the same id succeeds and installs the new port. |
| `OnBoardComputer.ConnectThenClose` | src/components/real/cdh/on_board_computer.cpp:25-43 | Connecting a free id and then closing it succeeds and restores the live ports. |
| `OnBoardComputer.I2cConnect` | src/components/real/cdh/on_board_computer.cpp:69-78 | The live I2C port (or a new empty one) gets the device appended. No other live port changes. |
| `OnBoardComputer.OBC.ConnectComPort` | src/components/real/cdh/on_board_computer.cpp:25-32 | The UART table and the result are those of `Connect`. The other tables are unchanged. |
| `OnBoardComputer.OBC.CloseComPort` | src/components/real/cdh/on_board_computer.cpp:35-43 | The UART table and the result are those of `Close`. The other tables are unchanged. |
| `OnBoardComputer.OBC.UartTransfer` | src/components/real/cdh/on_board_computer.cpp:45-67 | Returns -1 for an id without a live UART port, else the port's own transfer result. Only a null entry may be added. |
| `OnBoardComputer.OBC.SendFromObc` | src/components/real/cdh/on_board_computer.cpp:45-49 | Returns -1 for an unconnected id, else the port's transmit-buffer write result. |
| `OnBoardComputer.OBC.ReceivedByCompo` | src/components/real/cdh/on_board_computer.cpp:51-55 | Returns -1 for an unconnected id, else the port's transmit-buffer read result. |
| `OnBoardComputer.OBC.SendFromCompo` | src/components/real/cdh/on_board_computer.cpp:57-61 | Returns -1 for an unconnected id, else the port's receive-buffer write result. |
| `OnBoardComputer.OBC.ReceivedByObc` | src/components/real/cdh/on_board_computer.cpp:63-67 | Returns -1 for an unconnected id, else the port's receive-buffer read result. |
| `OnBoardComputer.OBC.I2cConnectPort` | src/components/real/cdh/on_board_computer.cpp:69-78 | Always returns 0. It reuses a live port or creates one, and registers the device on it. |
| `OnBoardComputer.OBC.I2cCloseComPort` | src/components/real/cdh/on_board_computer.cpp:80-88 | The I2C table and the result are those of `Close`: -1 for an unconnected id, else erased and 0. |
| `OnBoardComputer.OBC.GpioConnectPort` | src/components/real/cdh/on_board_computer.cpp:112-119 | The GPIO table and the result are those of `Connect`: -1 if the id is in use, else a new pin and 0. |
| `OnBoardComputer.OBC.GpioComponentWrite` | src/components/real/cdh/on_board_computer.cpp:121-125 | Returns -1 for an unconnected id, else the pin's write result. |
| `OnBoardComputer.OBC.GpioComponentRead` | src/components/real/cdh/on_board_computer.cpp:127-131 | Returns false for an unconnected id, else the pin's level. |
| `ControlledAttitudes.ConvertStringToCtrlMode` | src/dynamics/attitude/controlled_attitude.cpp:128-142 | Each of the five control modes is returned exactly for its own name. Every other string gives no control. |
| `ControlledAttitudes.ModeNameRoundTrip` | src/dynamics/attitude/controlled_attitude.cpp:128-142 | Writing any mode's name and reading it back gives the mode. |
| `ControlledAttitudes.TooCloseIsAngleTest` | src/dynamics/attitude/controlled_attitude.cpp:51-57 | The separation predicate holds exactly when the absolute inner product exceeds cos 30 degrees. |
| `ControlledAttitudes.ControlledAttitude.constructor` | src/dynamics/attitude/controlled_attitude.cpp:15-31 | Stores modes, attitude and directions, then runs `Initialize`. The calculation is enabled exactly when the mode pair and the normalised directions are accepted. |
| `ControlledAttitudes.ControlledAttitude.Initialize` | src/dynamics/attitude/controlled_attitude.cpp:36-60 | Only ever disables. No-control modes disable. Inertial stabilisation skips the direction checks. In a pointing mode, `main == sub` disables before the directions are touched; otherwise both are normalised and a separation under 30 degrees disables. |
| `ControlledAttitudes.ControlledAttitude.Propagate` | src/dynamics/attitude/controlled_attitude.cpp:62-80 | Nothing changes when disabled or in inertial stabilisation. Otherwise the attitude becomes the pointing attitude and the angular velocity and previous-step state are updated. |
| `ControlledAttitudes.ControlledAttitude.CalcAngularVelocity` | src/dynamics/attitude/controlled_attitude.cpp:144-169 | The angular velocity is zero without a positive previous time, else the attitude-difference rate. Afterwards the previous time, attitude and angular velocity equal the current ones. |
| `ControlledAttitudes.AngularVelocity` | src/dynamics/attitude/controlled_attitude.cpp:147-162 | Zero without a positive previous time. Otherwise each component times the step equals twice the vector part of `conj(previous) * current`. |
| `GnssConstellation.PushAndPop` | src/environment/global/gnss_satellites.cpp:55-56 | A push keeps the window length, drops the oldest sample and appends the new one last. |
| `GnssConstellation.PushAll` | src/environment/global/gnss_satellites.cpp:49-58 | Pushing a sequence of samples keeps the window length. |
| `GnssConstellation.PushAllKeepsNewest` | src/environment/global/gnss_satellites.cpp:49-58 | After `k` pushes the window holds its last `9 - k` old samples followed by the `k` new ones. |
| `GnssConstellation.PushAllReplacesWindow` | src/environment/global/gnss_satellites.cpp:49-58 | After nine pushes nothing of the placeholder window is left. |
| `GnssConstellation.InitialClockWindow` | src/environment/global/gnss_satellites.cpp:44-46 | The clock placeholder window has nine samples. |
| `GnssConstellation.InitialOrbitWindow` | src/environment/global/gnss_satellites.cpp:41 | The orbit placeholder window has nine samples. |
| `GnssConstellation.Step` | src/environment/global/gnss_satellites.cpp:58-67 | The cursor stays in its file exactly when the file has an epoch after the current one, and the epoch index then moves on by one. Otherwise it resets to 0 in the next file. The cursor stays on an epoch or just past the last file. |
| `GnssConstellation.Visit` | src/environment/global/gnss_satellites.cpp:49-68 | The seeding rounds read at most nine epochs, none in a file before the start, and all of them within the files. |
| `GnssConstellation.VisitConsecutive` | src/environment/global/gnss_satellites.cpp:49-68 | Seeding reads consecutive epochs, starting at the reference epoch. |
| `GnssConstellation.VisitStopsOnlyWhenExhausted` | src/environment/global/gnss_satellites.cpp:60-66 | Fewer than nine epochs are read only when the file chain runs out. |
| `GnssConstellation.OrbitSample` | src/environment/global/gnss_satellites.cpp:51-55 | An orbit sample is the epoch's offset from the reference epoch and the file position times 1000 (km to m). |
| `GnssConstellation.ClockSample` | src/environment/global/gnss_satellites.cpp:51-56 | A clock sample carries the epoch's offset from the reference epoch and the file's clock offset in microseconds. |
| `GnssConstellation.PushedOrbit` | src/environment/global/gnss_satellites.cpp:90-97 | One epoch is pushed into the first `count` orbit windows: each ends with that epoch's orbit sample, preceded by its old samples minus the oldest. Lengths are kept and all later windows are unchanged. |
| `GnssConstellation.PushedClock` | src/environment/global/gnss_satellites.cpp:90-97 | One epoch is pushed into the first `count` clock windows: each ends with that epoch's clock sample, preceded by its old samples minus the oldest. Lengths are kept and all later windows are unchanged. |
| `GnssConstellation.SeededOrbit` | src/environment/global/gnss_satellites.cpp:49-58 | The seeded orbit windows: one per satellite, each of nine samples. |
| `GnssConstellation.SeededClock` | src/environment/global/gnss_satellites.cpp:49-58 | The seeded clock windows: one per satellite, each of nine samples. |
| `GnssConstellation.NothingSeeded` | src/environment/global/gnss_satellites.cpp:41-46 | Before the first round every window is the placeholder. |
| `GnssConstellation.SeedRound` | src/environment/global/gnss_satellites.cpp:49-58 | One round, which pushes an epoch into every window, extends the seeded epochs by that epoch. |
| `GnssConstellation.SeededWindowIsNineEpochs` | src/environment/global/gnss_satellites.cpp:49-58 | A full seeding leaves each window holding exactly nine consecutive epochs, oldest first, the first at offset 0. |
| `GnssConstellation.FindSp3File` | src/environment/global/gnss_satellites.cpp:148-162 | A found file index is in range and its day contains the time. |
| `GnssConstellation.FindSp3FileSelects` | src/environment/global/gnss_satellites.cpp:148-162 | The scan selects file `i` if and only if `i` covers the time and every earlier file started at least a day before it. |
| `GnssConstellation.FindSp3FileComplete` | src/environment/global/gnss_satellites.cpp:148-162 | With files in start order, stopping at a later-starting file loses nothing: if any file covers the time, one is found no later. |
| `GnssConstellation.NearestEpochId` | src/environment/global/gnss_satellites.cpp:33 | The chosen epoch is at minimal distance from the time and is the first such epoch. |
| `GnssConstellation.SeedStart` | src/environment/global/gnss_satellites.cpp:33-37 | Seeding starts four epochs before the nearest epoch, or at the default index when that would go below 0. |
| `GnssConstellation.AsWrittenGuardAdmitsMissingWindow` | src/environment/global/gnss_satellites.cpp:114 | The id check as written lets through the id equal to the satellite count, which has no window. |
| `GnssConstellation.RefusesIdExactly` | src/environment/global/gnss_satellites.cpp:114 | The corrected check admits exactly the ids that have a window, and agrees with the written check on every other id. |
| `GnssConstellation.GnssSatellites.GetCurrentSp3File` | src/environment/global/gnss_satellites.cpp:148-162 | The loop finds a file exactly when the scan does, and then records its index. Otherwise the file index is unchanged. |
| `GnssConstellation.GnssSatellites.PushEpochSamples` | src/environment/global/gnss_satellites.cpp:90-97 | The windows of satellites `0 .. count-1` receive the epoch under the cursor. |
| `GnssConstellation.GnssSatellites.AdvanceEpoch` | src/environment/global/gnss_satellites.cpp:98-107 | The cursor takes one `Step`, rolling over into the next file. |
| `GnssConstellation.GnssSatellites.Initialize` | src/environment/global/gnss_satellites.cpp:20-71 | Without a covering file nothing but the files and time is set. Otherwise there are as many windows as the selected file has satellites, the reference time is the start epoch's, and the windows and cursor are those of the nine seeding rounds. |
| `GnssConstellation.GnssSatellites.SetUpWindows` | src/environment/global/gnss_satellites.cpp:31-68 | Sizing, reference epoch and seeding for the selected file. |
| `GnssConstellation.GnssSatellites.PrepareWindows` | src/environment/global/gnss_satellites.cpp:31-46 | There is one placeholder window per satellite, and the reference epoch is four before the nearest one. |
| `GnssConstellation.GnssSatellites.SeedWindows` | src/environment/global/gnss_satellites.cpp:48-68 | Up to nine rounds push consecutive epochs into every window. The cursor ends just after them. |
| `GnssConstellation.SeedingCentresOnNearest` | src/environment/global/gnss_satellites.cpp:33-58 | When the epoch nearest the start time is at least four epochs into the selected file and seeding reads nine epochs, the middle (fifth) sample of every window is that nearest epoch. |
| `GnssConstellation.FirstSlideAtNearestEpoch` | src/environment/global/gnss_satellites.cpp:87-89 | After such a seeding, `Update` slides the windows exactly when the current time is later than the epoch nearest the start time. |
| `GnssConstellation.GnssSatellites.Update` | src/environment/global/gnss_satellites.cpp:73-111 | Does nothing when disabled. Otherwise it records the time, and exactly when the time is past satellite 0's middle sample it pushes one epoch into the first 32 windows and steps the cursor once. |
| `GnssConstellation.GnssSatellites.GetPositionEcefM` | src/environment/global/gnss_satellites.cpp:113-129 | Returns the zero vector for an id without a window or an offset outside [0, 1e6] s. Otherwise it returns the interpolated position from that satellite's window. |
| `GnssConstellation.GnssSatellites.GetClockS` | src/environment/global/gnss_satellites.cpp:131-146 | Returns 0 for an id without a window or an out-of-range offset. Otherwise the result times 1e6 is the polynomial value, in microseconds. |
| `GnssConstellation.GnssSatellites.PositionAsWritten` | src/environment/global/gnss_satellites.cpp:113-129 | With the written `>` check the query reads past the windows exactly when `id` equals the satellite count and the time is in range. Otherwise it agrees with `GetPositionEcefM`. |
| `GnssConstellation.GnssSatellites.ClockAsWritten` | src/environment/global/gnss_satellites.cpp:131-146 | The same for the clock query and `GetClockS`. |
| `GnssConstellation.GnssSatellites.ZeroSecondQueryIsNow` | src/environment/global/gnss_satellites.cpp:116-122 | Any query time with whole-second part 0 gets the same answers as a query at the current epoch time. |

## Left out

- Floating point: every quantity is an exact real, so rounding in the vector, attitude and GNSS arithmetic is not modelled.
- `CalcNorm` (a square root), `CalcAngleTwoVectors_rad` (`acos`) and `Print` (stream output) in vector_template_functions.hpp are not modelled.
- VectorMath.Normalize: the norm is a parameter with `norm * norm == v . v`, because the square root cannot be computed over exact reals.
- VectorMath.Normalized: takes the norm as a parameter, for the same reason.
- VectorMath.DivAssign: requires `n != 0`. Over reals, `1 / 0` has no value; in the source it gives infinities or NaN.
- Vector length N is the length of the array or sequence, not a type parameter.
- SP3 file parsing and the calendar-to-epoch time conversion in `Update` (gnss_satellites.cpp:77-80) are not modelled. A file is a value with a start time, a satellite count and its epochs, and `Update` takes the converted time.
- `GnssConstellation.NearestEpochId` stands for `SearchNearestEpochId`, whose body is not part of this model. On ties it picks the first nearest epoch.
- The trigonometric orbit interpolator and the clock polynomial interpolator are function parameters of the queries. Their internals are not modelled.
- GnssConstellation.GnssSatellites.GetPositionEcefM: the interpolator receives the corrected orbital period, not the angular rate `2 pi / period`, because pi is irrational.
- The clock placeholder (-1, -1) and the orbit placeholder (offset 0, zero vector) are the window defaults. The interpolation classes that define them are not part of this model.
- GnssConstellation.GnssSatellites.Initialize: requires a fresh manager (empty windows, cursor at 0). It requires at least one file, because the source reads `sp3_files_[0]` before selecting a file (gnss_satellites.cpp:25). It also requires that every file from the selected one to the end of the chain has at least one epoch, consistent per-epoch data and at least as many satellites as the selected file. That is more than the source reads: seeding reads all satellites only in the files its nine epochs touch (gnss_satellites.cpp:49-67), and `Update` reads only satellites 0 .. 31 (gnss_satellites.cpp:90). Initialize stops seeding when the file chain runs out, where the source prints an error and indexes past the last file (gnss_satellites.cpp:63-66).
- GnssConstellation.GnssSatellites.Update: requires, when enabled, an unexhausted file chain and at least one tracked satellite, and at least 32 tracked satellites when the windows slide. Without them the source indexes out of range (gnss_satellites.cpp:85-97). An `Update` that consumes the last epoch of the last file reads `sp3_files_[size]` in the source (gnss_satellites.cpp:102-106). The model completes that call with the cursor past the chain.
- The "file range over" error message and the other console output are not modelled.
- `InitGnssSatellites` (gnss_satellites.cpp:187-245), which reads configuration and loads files, is not modelled.
- `GetLogHeader` and `GetLogValue` (gnss_satellites.cpp:164-185), which format log lines, are not modelled.
- GnssConstellation.GnssSatellites.constructor: the header with the field defaults is not part of this model. The constructor starts with no files, no windows and the cursor at 0.
- `I2cRegisters.I2CPort.constructor`: I2CPort.h is not part of this model. The pointer is assumed to start at 0. The parameterless constructor, which leaves the register count unset, is not modelled.
- The I2C register helpers of the OBC (on_board_computer.cpp:90-110) are not modelled. They use a different I2C port interface and dereference without a null check.
- The port objects are abstract. The UART buffers, I2C port internals and GPIO pin state are not modelled, and their data calls are function parameters.
- `new`/`delete` memory management in the OBC is not modelled.
- ControlledAttitudes.ControlledAttitude.constructor: the attitude base class is not part of this model. The calculation is assumed to start enabled, and the previous calculation time at -1.
- The inertia tensor and its inverse are not modelled.
- `CalcTargetDirection_i`, `PointingControl` and `CalcDcm` (controlled_attitude.cpp:82-126) are not modelled. Their result is the parameter `pointingAttitude` of `Propagate`.
- The quaternion product is a function parameter.
- The angular acceleration and torque of `CalcAngularVelocity`, and `AddTorque_b_Nm` (controlled_attitude.cpp:145-164), are not modelled.
- The 30-degree threshold is stated through cos^2 30 deg = 3/4, since cos 30 deg is irrational. The target-direction norms are parameters.
- ControlledAttitudes.ControlledAttitude.CalcAngularVelocity: requires a current time different from a positive previous time. Dividing by a zero time step gives infinities or NaN in the source.
- ControlledAttitudes.ControlledAttitude.Propagate: requires the same of `endTime`.
- The context files are not modelled: the solar radiation pressure model, the magnetometer and solar array panel configuration readers, the Raspberry Pi I2C target and the declaration-only headers.

## Findings

| source | as written | input that shows it | evidently intended | confidence | as-written member | corrected member |
|---|---|---|---|---|---|---|
| src/environment/global/gnss_satellites.cpp:114 | `GetPosition_ecef_m` refuses only `id > number_of_calculated_gnss_satellites_`, then reads `orbit_[id]` | `id == number_of_calculated_gnss_satellites_` with a query time in range: reads one window past the end | refuse `id >= number_of_calculated_gnss_satellites_` and return the zero vector | high (not executed) | `GnssConstellation.GnssSatellites.PositionAsWritten` | `GnssConstellation.GnssSatellites.GetPositionEcefM` |
| src/environment/global/gnss_satellites.cpp:132 | `GetClock_s` refuses only `id > number_of_calculated_gnss_satellites_`, then reads `clock_[id]` | `id == number_of_calculated_gnss_satellites_` with a query time in range: reads one window past the end | refuse `id >= number_of_calculated_gnss_satellites_` and return 0 | high (not executed) | `GnssConstellation.GnssSatellites.ClockAsWritten` | `GnssConstellation.GnssSatellites.GetClockS` |
