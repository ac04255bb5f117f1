// The attribute handles of the application's GATT database.
//
// The handle numbers are generated by the database compiler; the model takes
// them as a parameter and asks only that the layout be sane: every service
// occupies a range of handles, the ranges do not overlap, and each
// characteristic the application serves lies inside its own service's range.

module GattDb {
  import opened Sdk

  datatype HandleMap = HandleMap(
    gapStart: Word, gapEnd: Word, deviceName: Word,
    htStart: Word, htEnd: Word, tempMeas: Word, tempMeasCfg: Word,
    battStart: Word, battEnd: Word, battLevel: Word, battLevelCfg: Word,
    devInfoStart: Word, devInfoEnd: Word, systemId: Word)

  predicate InRange(lo: Word, hi: Word, handle: Word)
  {
    lo <= handle <= hi
  }

  predicate Disjoint(lo1: Word, hi1: Word, lo2: Word, hi2: Word)
  {
    hi1 < lo2 || hi2 < lo1
  }

  predicate WellFormed(h: HandleMap)
  {
    && InRange(h.gapStart, h.gapEnd, h.deviceName)
    && InRange(h.htStart, h.htEnd, h.tempMeas)
    && InRange(h.htStart, h.htEnd, h.tempMeasCfg)
    && h.tempMeas != h.tempMeasCfg
    && InRange(h.battStart, h.battEnd, h.battLevel)
    && InRange(h.battStart, h.battEnd, h.battLevelCfg)
    && h.battLevel != h.battLevelCfg
    && InRange(h.devInfoStart, h.devInfoEnd, h.systemId)
    && Disjoint(h.gapStart, h.gapEnd, h.htStart, h.htEnd)
    && Disjoint(h.gapStart, h.gapEnd, h.battStart, h.battEnd)
    && Disjoint(h.gapStart, h.gapEnd, h.devInfoStart, h.devInfoEnd)
    && Disjoint(h.htStart, h.htEnd, h.battStart, h.battEnd)
    && Disjoint(h.htStart, h.htEnd, h.devInfoStart, h.devInfoEnd)
    && Disjoint(h.battStart, h.battEnd, h.devInfoStart, h.devInfoEnd)
  }
}
