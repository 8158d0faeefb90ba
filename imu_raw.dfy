/**
 * The raw-IMU aggregator: up to three attached sensors (accelerometer,
 * gyroscope, magnetometer), each reached through its own capability, and the
 * 9-slot vector assembled from one read of each.
 *
 * A sensor is modelled as an object whose every capability answers from a
 * script of its own: the next reading (its verdict and whether it wrote the
 * caller's three slots) and the next readiness answer. Since each capability
 * only consumes its own script, one object may serve several capabilities,
 * as the MPU9250 serves both the accelerometer and the gyroscope.
 */
module ImuAggregator {
  import opened Bytes

  /**
   * What one `getData…Raw` call does: the verdict it returns, and either the
   * three values it stores in the caller's array or nothing at all.
   */
  datatype Reading =
    | Untouched(ok: bool)
    | Stored(ok: bool, x: Int16, y: Int16, z: Int16)

  /** The next reading of a script; an exhausted script fails and stores nothing. */
  function NextReading(script: seq<Reading>): Reading
  {
    if script == [] then Untouched(false) else script[0]
  }

  /** The next readiness answer of a script; an exhausted script says "not ready". */
  function NextReady(script: seq<bool>): bool
  {
    script != [] && script[0]
  }

  function Rest<T>(script: seq<T>): seq<T>
  {
    if script == [] then [] else script[1..]
  }

  /** A three-slot buffer after a reading. */
  function Applied(buf: seq<Int16>, r: Reading): seq<Int16>
  {
    if r.Stored? then [r.x, r.y, r.z] else buf
  }

  /**
   * The 9-slot vector of `getDataImuRaw`: the accelerometer, gyroscope and
   * magnetometer buffers, each after its reading, one after another.
   */
  function ImuVector(accBuf: seq<Int16>, gyrBuf: seq<Int16>, magBuf: seq<Int16>, ra: Reading, rg: Reading, rm: Reading): seq<Int16>
  {
    Applied(accBuf, ra) + Applied(gyrBuf, rg) + Applied(magBuf, rm)
  }

  /** Slots 0-2 come from the accelerometer, 3-5 from the gyroscope, 6-8 from the magnetometer. */
  lemma ImuVectorSlots(accBuf: seq<Int16>, gyrBuf: seq<Int16>, magBuf: seq<Int16>, ra: Reading, rg: Reading, rm: Reading, k: nat)
    requires |accBuf| == 3 && |gyrBuf| == 3 && |magBuf| == 3 && k < 3
    ensures |ImuVector(accBuf, gyrBuf, magBuf, ra, rg, rm)| == 9
    ensures ImuVector(accBuf, gyrBuf, magBuf, ra, rg, rm)[k] == Applied(accBuf, ra)[k]
    ensures ImuVector(accBuf, gyrBuf, magBuf, ra, rg, rm)[k + 3] == Applied(gyrBuf, rg)[k]
    ensures ImuVector(accBuf, gyrBuf, magBuf, ra, rg, rm)[k + 6] == Applied(magBuf, rm)[k]
  {
  }

  /**
   * A sensor read that fails without storing leaves its three slots holding
   * the previous contents of the internal buffer, while the other slots still
   * take their fresh values.
   */
  lemma StaleSlotsOnFailure(accBuf: seq<Int16>, gyrBuf: seq<Int16>, magBuf: seq<Int16>, ra: Reading, rg: Reading, rm: Reading)
    requires |accBuf| == 3 && |gyrBuf| == 3 && |magBuf| == 3
    requires ra.Untouched? && rg.Stored? && rm.Stored?
    ensures ImuVector(accBuf, gyrBuf, magBuf, ra, rg, rm) == accBuf + [rg.x, rg.y, rg.z, rm.x, rm.y, rm.z]
  {
  }

  /** A sensor behind the accelerometer, gyroscope and magnetometer capabilities. */
  class Sensor {
    var accReadings: seq<Reading>
    var accReady: seq<bool>
    var gyroReadings: seq<Reading>
    var gyroReady: seq<bool>
    var magReadings: seq<Reading>
    var magReady: seq<bool>

    constructor (accReadings: seq<Reading>, accReady: seq<bool>, gyroReadings: seq<Reading>, gyroReady: seq<bool>,
                 magReadings: seq<Reading>, magReady: seq<bool>)
      ensures this.accReadings == accReadings && this.accReady == accReady
      ensures this.gyroReadings == gyroReadings && this.gyroReady == gyroReady
      ensures this.magReadings == magReadings && this.magReady == magReady
    {
      this.accReadings, this.accReady := accReadings, accReady;
      this.gyroReadings, this.gyroReady := gyroReadings, gyroReady;
      this.magReadings, this.magReady := magReadings, magReady;
    }

    /** `IAcc::getDataAccRaw`. */
    method GetDataAccRaw(data: array<Int16>) returns (ok: bool)
      requires data.Length == 3
      modifies this`accReadings, data
      ensures accReadings == Rest(old(accReadings))
      ensures ok == NextReading(old(accReadings)).ok && data[..] == Applied(old(data[..]), NextReading(old(accReadings)))
    {
      var r := NextReading(accReadings);
      accReadings := Rest(accReadings);
      ok := Deliver(data, r);
    }

    /** `IGyro::getDataGyroRaw`. */
    method GetDataGyroRaw(data: array<Int16>) returns (ok: bool)
      requires data.Length == 3
      modifies this`gyroReadings, data
      ensures gyroReadings == Rest(old(gyroReadings))
      ensures ok == NextReading(old(gyroReadings)).ok && data[..] == Applied(old(data[..]), NextReading(old(gyroReadings)))
    {
      var r := NextReading(gyroReadings);
      gyroReadings := Rest(gyroReadings);
      ok := Deliver(data, r);
    }

    /** `IMag::getDataMagRaw`. */
    method GetDataMagRaw(data: array<Int16>) returns (ok: bool)
      requires data.Length == 3
      modifies this`magReadings, data
      ensures magReadings == Rest(old(magReadings))
      ensures ok == NextReading(old(magReadings)).ok && data[..] == Applied(old(data[..]), NextReading(old(magReadings)))
    {
      var r := NextReading(magReadings);
      magReadings := Rest(magReadings);
      ok := Deliver(data, r);
    }

    /** The caller's array after a reading, and the reading's verdict. */
    static method Deliver(data: array<Int16>, r: Reading) returns (ok: bool)
      requires data.Length == 3
      modifies data
      ensures ok == r.ok && data[..] == Applied(old(data[..]), r)
    {
      if r.Stored? {
        data[0], data[1], data[2] := r.x, r.y, r.z;
      }
      ok := r.ok;
    }

    /** `IAcc::isDataAccReady`. */
    method IsDataAccReady() returns (ready: bool)
      modifies this`accReady
      ensures accReady == Rest(old(accReady)) && ready == NextReady(old(accReady))
    {
      ready := NextReady(accReady);
      accReady := Rest(accReady);
    }

    /** `IGyro::isDataGyroReady`. */
    method IsDataGyroReady() returns (ready: bool)
      modifies this`gyroReady
      ensures gyroReady == Rest(old(gyroReady)) && ready == NextReady(old(gyroReady))
    {
      ready := NextReady(gyroReady);
      gyroReady := Rest(gyroReady);
    }

    /** `IMag::isDataMagReady`. */
    method IsDataMagReady() returns (ready: bool)
      modifies this`magReady
      ensures magReady == Rest(old(magReady)) && ready == NextReady(old(magReady))
    {
      ready := NextReady(magReady);
      magReady := Rest(magReady);
    }
  }

  /** `ImuRaw`: the three attachments and the internal buffer of each sensor. */
  class ImuRaw {
    var acc: Sensor?
    var gyro: Sensor?
    var mag: Sensor?
    const accdata: array<Int16>
    const gyrdata: array<Int16>
    const magdata: array<Int16>

    ghost predicate Valid()
    {
      accdata.Length == 3 && gyrdata.Length == 3 && magdata.Length == 3 &&
      accdata != gyrdata && gyrdata != magdata && accdata != magdata
    }

    /** Nothing attached; the header gives the buffers no initialiser, so they hold whatever `junk` says. */
    constructor (junk: seq<Int16>)
      requires |junk| == 9
      ensures Valid() && acc == null && gyro == null && mag == null
      ensures accdata[..] == junk[..3] && gyrdata[..] == junk[3..6] && magdata[..] == junk[6..]
      ensures fresh(accdata) && fresh(gyrdata) && fresh(magdata)
    {
      var a := new Int16[3](i requires 0 <= i < 3 => junk[i]);
      var g := new Int16[3](i requires 0 <= i < 3 => junk[i + 3]);
      var m := new Int16[3](i requires 0 <= i < 3 => junk[i + 6]);
      assert a[..] == junk[..3] && g[..] == junk[3..6] && m[..] == junk[6..];
      accdata, gyrdata, magdata := a, g, m;
      acc, gyro, mag := null, null, null;
    }

    /** `attachInterface`: all three or nothing. */
    method AttachInterface(iacc: Sensor?, igyro: Sensor?, imag: Sensor?) returns (ok: bool)
      modifies this`acc, this`gyro, this`mag
      ensures ok <==> iacc != null && igyro != null && imag != null
      ensures ok ==> acc == iacc && gyro == igyro && mag == imag
      ensures !ok ==> acc == old(acc) && gyro == old(gyro) && mag == old(mag)
    {
      if iacc == null || igyro == null || imag == null {
        return false;
      }
      acc, gyro, mag := iacc, igyro, imag;
      return true;
    }

    /**
     * `getDataImuRaw`: with all three attached, one read of each into its
     * internal buffer, then the buffers copied into `data`; the verdicts of the
     * individual reads are ignored.
     */
    method GetDataImuRaw(data: array<Int16>) returns (ok: bool)
      requires Valid() && data.Length == 9
      requires data != accdata && data != gyrdata && data != magdata
      modifies data, accdata, gyrdata, magdata, {acc}`accReadings, {gyro}`gyroReadings, {mag}`magReadings
      ensures ok <==> acc != null && gyro != null && mag != null
      ensures !ok ==> unchanged(data, accdata, gyrdata, magdata)
      ensures !ok ==>
        (acc != null ==> acc.accReadings == old(acc.accReadings)) &&
        (gyro != null ==> gyro.gyroReadings == old(gyro.gyroReadings)) &&
        (mag != null ==> mag.magReadings == old(mag.magReadings))
      ensures ok ==>
        var ra, rg, rm := NextReading(old(acc.accReadings)), NextReading(old(gyro.gyroReadings)), NextReading(old(mag.magReadings));
        data[..] == ImuVector(old(accdata[..]), old(gyrdata[..]), old(magdata[..]), ra, rg, rm) &&
        accdata[..] == Applied(old(accdata[..]), ra) && gyrdata[..] == Applied(old(gyrdata[..]), rg) &&
        magdata[..] == Applied(old(magdata[..]), rm) &&
        acc.accReadings == Rest(old(acc.accReadings)) && gyro.gyroReadings == Rest(old(gyro.gyroReadings)) &&
        mag.magReadings == Rest(old(mag.magReadings))
    {
      if acc == null || gyro == null || mag == null {
        return false;
      }
      var _ := acc.GetDataAccRaw(accdata);
      var _ := gyro.GetDataGyroRaw(gyrdata);
      var _ := mag.GetDataMagRaw(magdata);
      CopyInto(data, 0, accdata);
      CopyInto(data, 3, gyrdata);
      CopyInto(data, 6, magdata);
      assert data[..] == data[..3] + data[3..6] + data[6..];
      return true;
    }

    /** One of the copy loops of `getDataImuRaw`: `data[at + i] = buf[i]` for the three slots. */
    static method CopyInto(data: array<Int16>, at: nat, buf: array<Int16>)
      requires buf.Length == 3 && at + 3 <= data.Length && data != buf
      modifies data
      ensures data[..at] == old(data[..at]) && data[at..at + 3] == buf[..] && data[at + 3..] == old(data[at + 3..])
    {
      for i := 0 to 3
        invariant data[..at] == old(data[..at]) && data[at..at + i] == buf[..i] && data[at + 3..] == old(data[at + 3..])
        invariant forall j :: at + i <= j < at + 3 ==> data[j] == old(data[j])
      {
        data[at + i] := buf[i];
      }
    }

    /** `getDataAccRaw`: false when no accelerometer is attached, its verdict otherwise. */
    method GetDataAccRaw(data: array<Int16>) returns (ok: bool)
      requires data.Length == 3
      modifies data, {acc}`accReadings
      ensures acc == null ==> !ok && unchanged(data)
      ensures acc != null ==>
        ok == NextReading(old(acc.accReadings)).ok && acc.accReadings == Rest(old(acc.accReadings)) &&
        data[..] == Applied(old(data[..]), NextReading(old(acc.accReadings)))
    {
      if acc == null {
        return false;
      }
      ok := acc.GetDataAccRaw(data);
    }

    /** `getDataGyroRaw`: false when no gyroscope is attached, its verdict otherwise. */
    method GetDataGyroRaw(data: array<Int16>) returns (ok: bool)
      requires data.Length == 3
      modifies data, {gyro}`gyroReadings
      ensures gyro == null ==> !ok && unchanged(data)
      ensures gyro != null ==>
        ok == NextReading(old(gyro.gyroReadings)).ok && gyro.gyroReadings == Rest(old(gyro.gyroReadings)) &&
        data[..] == Applied(old(data[..]), NextReading(old(gyro.gyroReadings)))
    {
      if gyro == null {
        return false;
      }
      ok := gyro.GetDataGyroRaw(data);
    }

    /** `getDataMagRaw`: false when no magnetometer is attached, its verdict otherwise. */
    method GetDataMagRaw(data: array<Int16>) returns (ok: bool)
      requires data.Length == 3
      modifies data, {mag}`magReadings
      ensures mag == null ==> !ok && unchanged(data)
      ensures mag != null ==>
        ok == NextReading(old(mag.magReadings)).ok && mag.magReadings == Rest(old(mag.magReadings)) &&
        data[..] == Applied(old(data[..]), NextReading(old(mag.magReadings)))
    {
      if mag == null {
        return false;
      }
      ok := mag.GetDataMagRaw(data);
    }

    /** `isDataAccReady`: false when no accelerometer is attached. */
    method IsDataAccReady() returns (ready: bool)
      modifies {acc}`accReady
      ensures ready <==> acc != null && NextReady(old(acc.accReady))
      ensures acc != null ==> acc.accReady == Rest(old(acc.accReady))
    {
      if acc == null {
        return false;
      }
      ready := acc.IsDataAccReady();
    }

    /** `isDataGyroReady`: false when no gyroscope is attached. */
    method IsDataGyroReady() returns (ready: bool)
      modifies {gyro}`gyroReady
      ensures ready <==> gyro != null && NextReady(old(gyro.gyroReady))
      ensures gyro != null ==> gyro.gyroReady == Rest(old(gyro.gyroReady))
    {
      if gyro == null {
        return false;
      }
      ready := gyro.IsDataGyroReady();
    }

    /** `isDataMagReady`: false when no magnetometer is attached. */
    method IsDataMagReady() returns (ready: bool)
      modifies {mag}`magReady
      ensures ready <==> mag != null && NextReady(old(mag.magReady))
      ensures mag != null ==> mag.magReady == Rest(old(mag.magReady))
    {
      if mag == null {
        return false;
      }
      ready := mag.IsDataMagReady();
    }

    /**
     * `isDataReady`: the accelerometer, then the gyroscope, then the
     * magnetometer are asked, and asking stops at the first that is ready.
     */
    method IsDataReady() returns (ready: bool)
      modifies {acc}`accReady, {gyro}`gyroReady, {mag}`magReady
      ensures var a := acc != null && NextReady(old(acc.accReady));
        var g := gyro != null && NextReady(old(gyro.gyroReady));
        var m := mag != null && NextReady(old(mag.magReady));
        (ready <==> a || g || m) &&
        (acc != null ==> acc.accReady == Rest(old(acc.accReady))) &&
        (gyro != null ==> gyro.gyroReady == if a then old(gyro.gyroReady) else Rest(old(gyro.gyroReady))) &&
        (mag != null ==> mag.magReady == if a || g then old(mag.magReady) else Rest(old(mag.magReady)))
    {
      ready := IsDataAccReady();
      if ready {
        return;
      }
      ready := IsDataGyroReady();
      if ready {
        return;
      }
      ready := IsDataMagReady();
    }
  }
}
