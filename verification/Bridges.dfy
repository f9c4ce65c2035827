/** The digital-to-analog and analog-to-digital bridges: values with their operations, and the mutable participants. */
module Bridges {
  import opened Wrappers
  import opened Logic
  import opened CoSim

  const ANALOG_IN: nat := 1
  const ANALOG_OUT: nat := 2
  const DIGITAL_IN: nat := 3
  const DIGITAL_OUT: nat := 4
  const VOLT: nat := 0

  datatype BridgeError =
    | Cancelled | IdInvalid | RangeInvalid
    | WrongTime | PortMissing | PortDirection | WrongDomain | TwoStateInput | NotInitialized
    | SessionFailed

  /* ---- Digital to analog ---- */

  datatype Dac = Dac(id: nat, low: real, high: real, time: nat, input: LogicValue, output: real) {
    function Initialize(): Dac {
      this.(time := 0, input := Zero, output := low)
    }

    function Advance(target: nat): Result<Dac, BridgeError> {
      if target < time then Err(WrongTime) else Ok(this.(time := target))
    }

    function Read(port: nat): Result<Value, BridgeError> {
      if port != ANALOG_OUT then Err(PortMissing) else Ok(Volts(output))
    }

    function Write(port: nat, at: nat, value: Value): Result<(Dac, bool), BridgeError> {
      if port != DIGITAL_IN then Err(PortMissing)
      else if at != time then Err(WrongTime)
      else if !value.Level? then Err(WrongDomain)
      else if !value.level.IsKnown() then Err(TwoStateInput)
      else if value.level == input then Ok((this, false))
      else Ok((this.(input := value.level, output := if value.level == One then high else low), true))
    }

    /** The output is the voltage of the known input level. */
    predicate Valid() {
      low < high && input.IsKnown() && output == (if input == One then high else low)
    }
  }

  function NewDac(id: nat, low: real, high: real): (r: Result<Dac, BridgeError>)
    ensures r.Ok? ==> r.value.Valid()
    ensures r.Ok? <==> id != 0 && low < high
  {
    if id == 0 then Err(IdInvalid)
    else if low >= high then Err(RangeInvalid)
    else Ok(Dac(id, low, high, 0, Zero, low))
  }

  const DAC_PORTS: seq<Port> :=
    [Port(DIGITAL_IN, DigitalDomain, Input, None), Port(ANALOG_OUT, AnalogDomain, Output, Some(VOLT))]

  class DacParticipant {
    const id: nat
    const low: real
    const high: real
    var currentTime: nat
    var input: LogicValue
    var output: real

    function View(): Dac
      reads this
    {
      Dac(id, low, high, currentTime, input, output)
    }

    constructor (id: nat, low: real, high: real)
      requires NewDac(id, low, high).Ok?
      ensures Ok(View()) == NewDac(id, low, high)
    {
      this.id, this.low, this.high := id, low, high;
      currentTime, input, output := 0, Zero, low;
    }

    /** Cancellation, checked first by every operation but `ReadOutput`, changes nothing. */
    method Initialize() returns (r: Result<(), BridgeError>)
      modifies this
      ensures r.Ok? ==> View() == old(View()).Initialize()
      ensures r.Err? ==> r.error == Cancelled && View() == old(View())
    {
      if * {
        return Err(Cancelled);
      }
      currentTime := 0;
      input := Zero;
      output := low;
      r := Ok(());
    }

    method AdvanceTo(target: nat) returns (r: Result<(), BridgeError>)
      modifies this
      ensures r.Ok? ==> old(View()).Advance(target) == Ok(View())
      ensures r.Err? ==> View() == old(View()) && (r.error == Cancelled || View().Advance(target) == Err(r.error))
    {
      if * {
        return Err(Cancelled);
      }
      if target < currentTime {
        return Err(WrongTime);
      }
      currentTime := target;
      r := Ok(());
    }

    method ReadOutput(port: nat) returns (r: Result<Value, BridgeError>)
      ensures r == View().Read(port)
    {
      if port != ANALOG_OUT {
        return Err(PortMissing);
      }
      r := Ok(Volts(output));
    }

    method WriteInput(port: nat, time: nat, value: Value) returns (r: Result<bool, BridgeError>)
      modifies this
      ensures r.Ok? ==> old(View()).Write(port, time, value) == Ok((View(), r.value))
      ensures r.Err? ==> View() == old(View()) && (r.error == Cancelled
                                                   || View().Write(port, time, value) == Err(r.error))
    {
      if * {
        return Err(Cancelled);
      }
      if port != DIGITAL_IN {
        return Err(PortMissing);
      }
      if time != currentTime {
        return Err(WrongTime);
      }
      if !value.Level? {
        return Err(WrongDomain);
      }
      if !value.level.IsKnown() {
        return Err(TwoStateInput);
      }
      if value.level == input {
        return Ok(false);
      }
      input := value.level;
      output := if value.level == One then high else low;
      r := Ok(true);
    }
  }

  /* ---- Analog to digital ---- */

  /** At or below `low` zero, at or above `high` one, in between the previous value. */
  function ClassifyAdc(value: real, previous: LogicValue, low: real, high: real): LogicValue {
    if value <= low then Zero else if value >= high then One else previous
  }

  datatype Adc = Adc(id: nat, low: real, high: real, time: nat, input: real, output: LogicValue) {
    function Initialize(): Adc {
      this.(time := 0, input := 0.0, output := ClassifyAdc(0.0, Zero, low, high))
    }

    function Advance(target: nat): Result<Adc, BridgeError> {
      if target < time then Err(WrongTime) else Ok(this.(time := target))
    }

    function Read(port: nat): Result<Value, BridgeError> {
      if port != DIGITAL_OUT then Err(PortMissing) else Ok(Level(output))
    }

    function Write(port: nat, at: nat, value: Value): Result<(Adc, bool), BridgeError> {
      if port != ANALOG_IN then Err(PortMissing)
      else if at != time then Err(WrongTime)
      else if !value.Volts? then Err(WrongDomain)
      else if value.volts == input then Ok((this, false))
      else Ok((this.(input := value.volts, output := ClassifyAdc(value.volts, output, low, high)), true))
    }

    /** The output is known, and classifying the present input again would not change it. */
    predicate Valid() {
      low < high && output.IsKnown() && output == ClassifyAdc(input, output, low, high)
    }
  }

  function NewAdc(id: nat, low: real, high: real): (r: Result<Adc, BridgeError>)
    ensures r.Ok? ==> r.value.Valid()
    ensures r.Ok? <==> id != 0 && low < high
  {
    if id == 0 then Err(IdInvalid)
    else if low >= high then Err(RangeInvalid)
    else Ok(Adc(id, low, high, 0, 0.0, ClassifyAdc(0.0, Zero, low, high)))
  }

  const ADC_PORTS: seq<Port> :=
    [Port(ANALOG_IN, AnalogDomain, Input, Some(VOLT)), Port(DIGITAL_OUT, DigitalDomain, Output, None)]

  class AdcParticipant {
    const id: nat
    const low: real
    const high: real
    var currentTime: nat
    var input: real
    var output: LogicValue

    function View(): Adc
      reads this
    {
      Adc(id, low, high, currentTime, input, output)
    }

    constructor (id: nat, low: real, high: real)
      requires NewAdc(id, low, high).Ok?
      ensures Ok(View()) == NewAdc(id, low, high)
    {
      this.id, this.low, this.high := id, low, high;
      currentTime, input, output := 0, 0.0, ClassifyAdc(0.0, Zero, low, high);
    }

    method Initialize() returns (r: Result<(), BridgeError>)
      modifies this
      ensures r.Ok? ==> View() == old(View()).Initialize()
      ensures r.Err? ==> r.error == Cancelled && View() == old(View())
    {
      if * {
        return Err(Cancelled);
      }
      currentTime := 0;
      input := 0.0;
      output := ClassifyAdc(input, Zero, low, high);
      r := Ok(());
    }

    method AdvanceTo(target: nat) returns (r: Result<(), BridgeError>)
      modifies this
      ensures r.Ok? ==> old(View()).Advance(target) == Ok(View())
      ensures r.Err? ==> View() == old(View()) && (r.error == Cancelled || View().Advance(target) == Err(r.error))
    {
      if * {
        return Err(Cancelled);
      }
      if target < currentTime {
        return Err(WrongTime);
      }
      currentTime := target;
      r := Ok(());
    }

    method ReadOutput(port: nat) returns (r: Result<Value, BridgeError>)
      ensures r == View().Read(port)
    {
      if port != DIGITAL_OUT {
        return Err(PortMissing);
      }
      r := Ok(Level(output));
    }

    method WriteInput(port: nat, time: nat, value: Value) returns (r: Result<bool, BridgeError>)
      modifies this
      ensures r.Ok? ==> old(View()).Write(port, time, value) == Ok((View(), r.value))
      ensures r.Err? ==> View() == old(View()) && (r.error == Cancelled
                                                   || View().Write(port, time, value) == Err(r.error))
    {
      if * {
        return Err(Cancelled);
      }
      if port != ANALOG_IN {
        return Err(PortMissing);
      }
      if time != currentTime {
        return Err(WrongTime);
      }
      if !value.Volts? {
        return Err(WrongDomain);
      }
      if value.volts == input {
        return Ok(false);
      }
      input := value.volts;
      output := ClassifyAdc(input, output, low, high);
      r := Ok(true);
    }
  }

  /* ---- Hysteresis over whole write histories ---- */

  /** The converter after writing `values` in order, each at its current time. */
  function WriteEach(adc: Adc, values: seq<real>): Adc {
    if |values| == 0 then adc
    else
      var before := WriteEach(adc, values[..|values| - 1]);
      before.Write(ANALOG_IN, before.time, Volts(values[|values| - 1])).value.0
  }

  predicate Decisive(adc: Adc, value: real) {
    value <= adc.low || value >= adc.high
  }

  /** Value number `k` is the last decisive one. */
  predicate LastDecisive(adc: Adc, values: seq<real>, k: nat) {
    k < |values| && Decisive(adc, values[k]) && forall i :: k < i < |values| ==> !Decisive(adc, values[i])
  }

  predicate NoneDecisive(adc: Adc, values: seq<real>) {
    forall i :: 0 <= i < |values| ==> !Decisive(adc, values[i])
  }

  lemma WriteOnce(adc: Adc, value: real)
    requires adc.Valid()
    ensures var next := adc.Write(ANALOG_IN, adc.time, Volts(value)).value.0;
            && next.Valid() && next.low == adc.low && next.high == adc.high
            && next.output == if value <= adc.low then Zero else if value >= adc.high then One else adc.output
  {
  }

  /** The output is what the last decisive value says, or as before if every value lay between the thresholds. */
  lemma {:induction false} AdcRemembers(adc: Adc, values: seq<real>, k: nat)
    requires adc.Valid()
    ensures var last := WriteEach(adc, values);
            && last.Valid() && last.low == adc.low && last.high == adc.high
            && (NoneDecisive(adc, values) ==> last.output == adc.output)
            && (LastDecisive(adc, values, k) ==> last.output == if values[k] <= adc.low then Zero else One)
  {
    if |values| > 0 {
      var rest := values[..|values| - 1];
      AdcRemembers(adc, rest, k);
      WriteOnce(WriteEach(adc, rest), values[|rest|]);
      assert NoneDecisive(adc, values) ==> NoneDecisive(adc, rest);
      assert LastDecisive(adc, values, k) && k < |rest| ==> LastDecisive(adc, rest, k);
    }
  }

  /* ---- What converters show over whole histories of calls ---- */

  /** Calls without an error: initialize, advance, or write at the current time. */
  datatype Call = Restart | Reach(target: nat) | Put(port: nat, value: Value)

  function DacCall(dac: Dac, call: Call): Result<Dac, BridgeError> {
    match call
    case Restart => Ok(dac.Initialize())
    case Reach(target) => dac.Advance(target)
    case Put(port, value) =>
      var next :- dac.Write(port, dac.time, value);
      Ok(next.0)
  }

  function DacCalls(dac: Dac, calls: seq<Call>): Result<Dac, BridgeError>
    decreases |calls|
  {
    if |calls| == 0 then Ok(dac)
    else
      var before :- DacCalls(dac, calls[..|calls| - 1]);
      DacCall(before, calls[|calls| - 1])
  }

  function AdcCall(adc: Adc, call: Call): Result<Adc, BridgeError> {
    match call
    case Restart => Ok(adc.Initialize())
    case Reach(target) => adc.Advance(target)
    case Put(port, value) =>
      var next :- adc.Write(port, adc.time, value);
      Ok(next.0)
  }

  function AdcCalls(adc: Adc, calls: seq<Call>): Result<Adc, BridgeError>
    decreases |calls|
  {
    if |calls| == 0 then Ok(adc)
    else
      var before :- AdcCalls(adc, calls[..|calls| - 1]);
      AdcCall(before, calls[|calls| - 1])
  }

  /** The time of the last advance since the last start. */
  function LastTime(calls: seq<Call>, initial: nat): nat
    decreases |calls|
  {
    if |calls| == 0 then initial
    else
      match calls[|calls| - 1]
      case Restart => 0
      case Reach(target) => target
      case Put(_, _) => LastTime(calls[..|calls| - 1], initial)
  }

  /** The level written last since the last start, at which it is low. */
  function LastLevel(calls: seq<Call>, initial: LogicValue): LogicValue
    decreases |calls|
  {
    if |calls| == 0 then initial
    else
      match calls[|calls| - 1]
      case Restart => Zero
      case Put(_, Level(level)) => level
      case _ => LastLevel(calls[..|calls| - 1], initial)
  }

  /** What the last voltage outside the thresholds said; a start counts as 0 V on a low output. */
  function LastClass(low: real, high: real, calls: seq<Call>, initial: LogicValue): LogicValue
    decreases |calls|
  {
    if |calls| == 0 then initial
    else
      var before := LastClass(low, high, calls[..|calls| - 1], initial);
      match calls[|calls| - 1]
      case Restart => if low < 0.0 && high <= 0.0 then One else Zero
      case Put(_, Volts(volts)) => if low < volts < high then before else if volts >= high then One else Zero
      case _ => before
  }

  /** After any calls, a D/A converter hands out the voltage of the level last written, at the time last reached. */
  lemma {:induction false} DacShows(dac: Dac, calls: seq<Call>)
    requires dac.Valid() && DacCalls(dac, calls).Ok?
    ensures var last := DacCalls(dac, calls).value;
            && last.Valid() && last.low == dac.low && last.high == dac.high && last.time == LastTime(calls, dac.time)
            && last.Read(ANALOG_OUT) == Ok(Volts(if LastLevel(calls, dac.input) == One then dac.high else dac.low))
            && last.input == LastLevel(calls, dac.input)
            && forall port :: port != ANALOG_OUT ==> last.Read(port) == Err(PortMissing)
    decreases |calls|
  {
    if |calls| > 0 {
      DacShows(dac, calls[..|calls| - 1]);
    }
  }

  /** And an A/D converter the level that the voltages written say, with hysteresis. */
  lemma {:induction false} AdcShows(adc: Adc, calls: seq<Call>)
    requires adc.Valid() && AdcCalls(adc, calls).Ok?
    ensures var last := AdcCalls(adc, calls).value;
            && last.Valid() && last.low == adc.low && last.high == adc.high && last.time == LastTime(calls, adc.time)
            && last.Read(DIGITAL_OUT) == Ok(Level(LastClass(adc.low, adc.high, calls, adc.output)))
            && forall port :: port != DIGITAL_OUT ==> last.Read(port) == Err(PortMissing)
    decreases |calls|
  {
    if |calls| > 0 {
      AdcShows(adc, calls[..|calls| - 1]);
    }
  }

  /** A D/A converter takes exactly known levels, at its input port and its current time. */
  lemma DacAccepts(dac: Dac, port: nat, at: nat, value: Value)
    ensures dac.Write(port, at, value).Ok? <==>
              port == DIGITAL_IN && at == dac.time && (value == Level(Zero) || value == Level(One))
    ensures dac.Write(port, at, value).Ok? ==>
              (dac.Write(port, at, value).value.1 <==> value != Level(dac.input))
    ensures forall target :: dac.Advance(target).Ok? <==> dac.time <= target
  {
  }

  /** An A/D converter takes exactly voltages. */
  lemma AdcAccepts(adc: Adc, port: nat, at: nat, value: Value)
    ensures adc.Write(port, at, value).Ok? <==> port == ANALOG_IN && at == adc.time && value.Volts?
    ensures adc.Write(port, at, value).Ok? ==>
              (adc.Write(port, at, value).value.1 <==> value != Volts(adc.input))
    ensures forall target :: adc.Advance(target).Ok? <==> adc.time <= target
  {
  }
}
