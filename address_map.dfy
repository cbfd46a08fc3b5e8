/**
 * The EEPROM address map: the start address of every persisted field and
 * the number of bytes it occupies.
 */
module AddressMap {

  // Hardware
  const HW_RefStartFreq := 16        // 4 bytes
  const HW_T1 := 21                  // 1 byte
  const HW_DisplayMode := 22         // 1 byte
  const HW_WarmUp := 24              // 1 byte

  // GPS
  const GPS_Wait := 33               // 1 byte
  const GPS_Echo := 34               // 1 byte

  // Common
  const COMMON_Locator := 101        // 8 + 1 bytes

  // Beacon
  const BEACON_Frequency := 128      // 8 bytes
  const BEACON_CalibInterval := 137  // 1 byte
  const BEACON_Call := 140           // 15 + 1 bytes
  const BEACON_MGMMsg := 156         // 15 + 1 bytes
  const BEACON_WSPRPower := 194      // 1 byte
  const BEACON_Interval := 195       // 1 byte

  /** One persisted field: where it starts and how many bytes it takes. */
  datatype Field = Field(addr: int, width: nat)

  function End(f: Field): int
  {
    f.addr + f.width
  }

  /** Every field of the map, in address order. */
  const Layout: seq<Field> := [
    Field(HW_RefStartFreq, 4),
    Field(HW_T1, 1),
    Field(HW_DisplayMode, 1),
    Field(HW_WarmUp, 1),
    Field(GPS_Wait, 1),
    Field(GPS_Echo, 1),
    Field(COMMON_Locator, 9),
    Field(BEACON_Frequency, 8),
    Field(BEACON_CalibInterval, 1),
    Field(BEACON_Call, 16),
    Field(BEACON_MGMMsg, 16),
    Field(BEACON_WSPRPower, 1),
    Field(BEACON_Interval, 1)
  ]

  /** Each field ends no later than the next one starts. */
  ghost predicate Ordered(fields: seq<Field>)
  {
    forall i :: 0 <= i < |fields| - 1 ==> End(fields[i]) <= fields[i + 1].addr
  }

  /** No two fields share a byte: every earlier field ends before every later one starts. */
  ghost predicate Disjoint(fields: seq<Field>)
  {
    forall i, j :: 0 <= i < j < |fields| ==> End(fields[i]) <= fields[j].addr
  }

  lemma {:induction false} OrderedIsDisjoint(fields: seq<Field>)
    requires Ordered(fields)
    ensures Disjoint(fields)
  {
    if |fields| > 1 {
      var rest := fields[1..];
      assert Ordered(rest) by {
        forall i | 0 <= i < |rest| - 1
          ensures End(rest[i]) <= rest[i + 1].addr
        {
          assert rest[i] == fields[i + 1] && rest[i + 1] == fields[i + 2];
        }
      }
      OrderedIsDisjoint(rest);
      forall i, j | 0 <= i < j < |fields|
        ensures End(fields[i]) <= fields[j].addr
      {
        if 0 < i {
          assert fields[i] == rest[i - 1] && fields[j] == rest[j - 1];
        } else if 1 < j {
          assert fields[1] == rest[0] && fields[j] == rest[j - 1];
          assert End(rest[0]) <= rest[j - 1].addr;
        }
      }
    }
  }

  /** The address map never lets a write to one field alter another. */
  lemma LayoutIsDisjoint()
    ensures Disjoint(Layout)
    ensures End(Field(HW_RefStartFreq, 4)) <= HW_T1
    ensures End(Field(COMMON_Locator, 9)) <= BEACON_Frequency
    ensures End(Field(BEACON_Frequency, 8)) <= BEACON_CalibInterval
    ensures End(Field(BEACON_Call, 16)) == BEACON_MGMMsg
  {
    OrderedIsDisjoint(Layout);
  }
}
