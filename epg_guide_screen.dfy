/**
 * The time bar of the phone EPG guide (src/screens/EpgGuideScreen.tsx):
 * one label every 30 minutes over a day, on a 12-hour clock.
 */
module EpgGuideScreen {
  import opened Strings

  const TimelineHours: nat := 24
  const TimelineInterval: nat := 30

  /** The hour on a 12-hour clock, midnight and noon shown as '12'. */
  function HourLabel(hh: nat): string
  {
    if hh % 12 == 0 then "12" else NatToString(hh % 12)
  }

  /** The last two characters of the hour modulo 12, with '0' replaced by '12', are HourLabel. */
  lemma HourLabelSlice(hh: nat)
    ensures (var h := SliceLast(NatToString(hh % 12), 2); if h == "0" then "12" else h) == HourLabel(hh)
  {
    var n := hh % 12;
    if n < 10 {
      assert NatToString(n) == [Digit(n)];
    } else {
      assert NatToString(n / 10) == [Digit(n / 10)];
      assert NatToString(n) == [Digit(n / 10), Digit(n % 10)];
    }
    assert SliceLast(NatToString(n), 2) == NatToString(n);
    if n != 0 {
      assert NatToString(n)[0] != '0';
    }
  }

  /** The label of the slot starting `minutes` after midnight, e.g. '9:30am'. */
  function SlotLabel(minutes: nat): string
  {
    var hh := minutes / 60;
    var mm := minutes % 60;
    HourLabel(hh) + ":" + Pad2(mm) + (if hh < 12 then "am" else "pm")
  }

  /** `calculateEpgTimeBarSlots`: walks a minute counter from midnight in 30-minute steps. */
  method CalculateEpgTimeBarSlots() returns (slots: seq<string>)
    ensures |slots| == 48
    ensures forall k :: 0 <= k < |slots| ==> slots[k] == SlotLabel(30 * k)
  {
    var startMinutes: nat := 0;
    slots := [];
    while startMinutes < TimelineHours * 60
      invariant startMinutes == 30 * |slots| && startMinutes <= 1440
      invariant forall k :: 0 <= k < |slots| ==> slots[k] == SlotLabel(30 * k)
      decreases 1440 - startMinutes
    {
      var time := SlotLabel(startMinutes);
      startMinutes := startMinutes + TimelineInterval;
      slots := slots + [time];
    }
  }

  /** The hour label is a number from 1 to 12: the hour on a 12-hour clock, midnight and noon being 12. */
  lemma HourLabelValue(hh: nat)
    ensures forall i :: 0 <= i < |HourLabel(hh)| ==> IsDigit(HourLabel(hh)[i])
    ensures ParseDigits(HourLabel(hh)) == if hh % 12 == 0 then 12 else hh % 12
  {
    var n := hh % 12;
    if n == 0 {
      assert ParseDigits("12") == 12 by {
        assert "12"[..1] == "1";
        assert "1"[..0] == "";
      }
    } else {
      ParseNatToString(n);
    }
  }

  /** Slot k is hour k/2 on a 12-hour clock, minutes '00' or '30', 'am' exactly in the first 24 slots. */
  lemma SlotShape(k: nat)
    requires k < 48
    ensures SlotLabel(30 * k) == HourLabel(k / 2) + ":" + (if k % 2 == 0 then "00" else "30") + (if k < 24 then "am" else "pm")
  {
    assert (30 * k) / 60 == k / 2;
    assert (30 * k) % 60 == 30 * (k % 2);
    if k % 2 == 0 {
      assert Pad2(0) == "00";
    } else {
      assert Pad2(30) == "30" by {
        assert NatToString(30) == NatToString(3) + [Digit(0)];
      }
    }
  }

  /** The bar starts at '12:00am'. */
  lemma FirstSlot()
    ensures SlotLabel(0) == "12:00am"
  {
    SlotShape(0);
  }

  /** The bar ends at '11:30pm'. */
  lemma LastSlot()
    ensures SlotLabel(30 * 47) == "11:30pm"
  {
    assert 1410 / 60 == 23 && 1410 % 60 == 30;
    ElevenOClock();
    assert Pad2(30) == "30";
  }

  lemma ElevenOClock()
    ensures HourLabel(23) == "11"
  {
    assert NatToString(11) == NatToString(1) + [Digit(1)];
  }
}
