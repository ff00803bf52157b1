/** The controller as the firmware holds it: globals and peripheral
    registers updated in place by the three interrupt handlers. Each handler
    runs to completion, so each is one method; `View` reads the fields as a
    `ControllerSpec.Machine`, and every method is proved to move the view
    exactly as the specification function of its handler does. */
module Controller {
  import opened SpeedTable
  import opened ControllerSpec

  class FanController {
    var currentState: nat
    var appState: State
    var speedRequested: bool
    var enableRequested: bool
    var p1ifg: set<Pin>
    var p2ifg: set<Pin>
    var p2out: set<Pin>
    var duty: nat           // TA0CCR1
    var debounceCount: nat  // TA1R
    var debounceRunning: bool
    var pwmRunning: bool
    var oscOff: bool

    ghost function View(): Machine
      reads this
    {
      Machine(currentState, appState, speedRequested, enableRequested,
              p1ifg, p2ifg, p2out, duty, debounceCount,
              debounceRunning, pwmRunning, oscOff)
    }

    ghost predicate Valid()
      reads this
    {
      Consistent(View())
    }

    /** What `main` sets up before it sleeps: the Off entry selected and
        cached, LED pins cleared, the duty loaded with the Off speed while
        both timers are stopped, and LPM4 entered. */
    constructor (p2outAtReset: set<Pin>)
      ensures Valid()
      ensures View() == Initial(p2outAtReset)
    {
      currentState := 0;
      appState := Entry(0);
      speedRequested := false;
      enableRequested := false;
      p1ifg := {};
      p2ifg := {};
      p2out := p2outAtReset - LED_MASK;
      pwmRunning := false;
      duty := Entry(0).speed;
      debounceCount := 0;
      debounceRunning := false;
      oscOff := true;
    }

    /** The port hardware latching a falling edge of the speed button. */
    method LatchSpeedEdge()
      modifies this`p1ifg
      ensures p1ifg == old(p1ifg) + {SPEED_PUSH_BUTTON}
      ensures View() == ControllerSpec.LatchSpeedEdge(old(View()))
    {
      p1ifg := p1ifg + {SPEED_PUSH_BUTTON};
    }

    /** The port hardware latching a falling edge of the enable button. */
    method LatchEnableEdge()
      modifies this`p2ifg
      ensures p2ifg == old(p2ifg) + {ENABLE_PUSH_BUTTON}
      ensures View() == ControllerSpec.LatchEnableEdge(old(View()))
    {
      p2ifg := p2ifg + {ENABLE_PUSH_BUTTON};
    }

    /** Port1_ISR: the speed request becomes the only pending one, the
        debounce timer restarts from zero, the CPU keeps ACLK on exit, and
        the edge flag is re-armed. */
    method Port1Isr()
      requires Valid()
      modifies this
      ensures Valid()
      ensures View() == SpeedButtonIsr(old(View()))
      ensures SPEED_PUSH_BUTTON in old(p1ifg) ==>
        && speedRequested && !enableRequested
        && debounceCount == 0 && debounceRunning && !oscOff
        && SPEED_PUSH_BUTTON !in p1ifg
      ensures currentState == old(currentState) && appState == old(appState)
      ensures p2out == old(p2out) && duty == old(duty)
    {
      ghost var m := View();
      if SPEED_PUSH_BUTTON in p1ifg {
        enableRequested := false;
        speedRequested := true;
        debounceRunning := false;
        debounceCount := 0;
        debounceRunning := true;
        oscOff := false;
        p1ifg := p1ifg - {SPEED_PUSH_BUTTON};
      }
      assert View() == SpeedButtonIsr(m);
    }

    /** Port2_ISR: the same for the enable button. */
    method Port2Isr()
      requires Valid()
      modifies this
      ensures Valid()
      ensures View() == EnableButtonIsr(old(View()))
      ensures ENABLE_PUSH_BUTTON in old(p2ifg) ==>
        && enableRequested && !speedRequested
        && debounceCount == 0 && debounceRunning && !oscOff
        && ENABLE_PUSH_BUTTON !in p2ifg
      ensures currentState == old(currentState) && appState == old(appState)
      ensures p2out == old(p2out) && duty == old(duty)
    {
      ghost var m := View();
      if ENABLE_PUSH_BUTTON in p2ifg {
        speedRequested := false;
        enableRequested := true;
        debounceRunning := false;
        debounceCount := 0;
        debounceRunning := true;
        oscOff := false;
        p2ifg := p2ifg - {ENABLE_PUSH_BUTTON};
      }
      assert View() == EnableButtonIsr(m);
    }

    /** Writes the PWM compare register; only allowed while TA0 is stopped,
        so the output never runs with a half-updated duty. */
    method SetDuty(value: nat)
      requires !pwmRunning
      modifies this`duty
      ensures duty == value
    {
      duty := value;
    }

    /** The speed branch of the expiry handler, run while TA0 is stopped. */
    method ConsumeSpeedRequest()
      requires !pwmRunning
      modifies this
      ensures View() == ApplySpeedRequest(old(View()))
    {
      ghost var m := View();
      speedRequested := false;
      if !appState.enabled && currentState != 0 {
        appState := appState.(enabled := true);
        p2out := p2out + appState.indicator;
        SetDuty(appState.speed);
        assert View() == ApplySpeedRequest(m);
      } else {
        if currentState < TOTAL_STATES - 1 {
          currentState := currentState + 1;
        } else {
          currentState := 0;
        }
        assert currentState == NextIndex(m.currentState);
        p2out := p2out - appState.indicator;
        appState := Entry(currentState);
        p2out := p2out + appState.indicator;
        SetDuty(appState.speed);
        assert View() == ApplySpeedRequest(m);
      }
    }

    /** The enable branch of the expiry handler, run while TA0 is stopped. */
    method ConsumeEnableRequest()
      requires !pwmRunning
      modifies this
      ensures View() == ApplyEnableRequest(old(View()))
    {
      enableRequested := false;
      if appState.enabled {
        p2out := p2out - appState.indicator;
        SetDuty(NO_SPEED_VALUE);
      } else {
        p2out := p2out + appState.indicator;
        SetDuty(appState.speed);
      }
      appState := appState.(enabled := !appState.enabled);
    }

    /** Timer1_A1_ISR, on debounce expiry: the pending request is applied
        with TA0 stopped, TA0 is restarted, and the CPU is left to sleep in
        LPM3 while the fan is on and in LPM4 while it is off. */
    method Timer1Isr()
      requires Valid()
      modifies this
      ensures Valid()
      ensures View() == Expire(old(View()))
      ensures !speedRequested && !enableRequested
      ensures !debounceRunning && pwmRunning
      ensures duty == if appState.enabled then Entry(currentState).speed else NO_SPEED_VALUE
      ensures p2out * LED_MASK == if appState.enabled then Entry(currentState).indicator else {}
      ensures p2out - LED_MASK == old(p2out) - LED_MASK
      ensures oscOff <==> !appState.enabled
      ensures !old(speedRequested) && !old(enableRequested) ==>
        currentState == old(currentState) && appState == old(appState)
        && p2out == old(p2out) && duty == old(duty)
    {
      ghost var before := View();
      ExpireKeepsInv(before);
      debounceRunning := false;
      pwmRunning := false;
      ghost var stopped := View();
      if speedRequested {
        ConsumeSpeedRequest();
      }
      assert View() == if stopped.speedRequested then ApplySpeedRequest(stopped) else stopped;
      ghost var afterSpeed := View();
      if enableRequested {
        ConsumeEnableRequest();
      }
      assert View() == if afterSpeed.enableRequested then ApplyEnableRequest(afterSpeed) else afterSpeed;
      pwmRunning := true;
      assert View() == Dispatch(before);
      oscOff := !appState.enabled;
    }
  }
}
