/** The six-factor, sign-dependent, per-axis scale `Scale_Custom.ScaleCustom`:
    like `Vector3.Scale`, but each axis has one factor for a strictly positive
    component and another for a strictly negative one; a zero component is
    left as it is. */
module DirectionalScale {
  import opened Vectors

  /** One axis of the scale: the component times `pos` when it is strictly
      positive, times `neg` when strictly negative, otherwise unchanged. */
  function AxisScale(c: real, pos: real, neg: real): real {
    if c > 0.0 then c * pos else if c < 0.0 then c * neg else c
  }

  /** The specification of `ScaleCustom`: each axis scaled on its own by
      `AxisScale`. Its meaning for one call: the zero vector is fixed; unit
      factors give the identity; one factor per axis for both signs gives
      `Vector3.Scale`; strictly positive factors keep every component's
      sign. */
  function ScaleCustom(value: Vector3,
                       posX: real, negX: real,
                       posY: real, negY: real,
                       posZ: real, negZ: real): (r: Vector3)
    ensures value == Zero ==> r == Zero
    ensures posX == negX == posY == negY == posZ == negZ == 1.0 ==> r == value
    ensures posX == negX && posY == negY && posZ == negZ ==>
              r == Scale(value, Vector3(posX, posY, posZ))
    ensures posX > 0.0 && negX > 0.0 && posY > 0.0 && negY > 0.0 && posZ > 0.0 && negZ > 0.0 ==>
              SameSigns(r, value)
  {
    Vector3(AxisScale(value.x, posX, negX),
            AxisScale(value.y, posY, negY),
            AxisScale(value.z, posZ, negZ))
  }

  /** The source's body: `value` is copied into `result`, then each axis of
      `result` is updated by an if/else-if on its sign, then `result` is
      returned. `value` itself is a value and cannot change. */
  method ComputeScaleCustom(value: Vector3,
                            posX: real, negX: real,
                            posY: real, negY: real,
                            posZ: real, negZ: real)
    returns (result: Vector3)
    ensures result == ScaleCustom(value, posX, negX, posY, negY, posZ, negZ)
  {
    result := value;
    if result.x > 0.0 {
      result := result.(x := result.x * posX);
    } else if result.x < 0.0 {
      result := result.(x := result.x * negX);
    }

    if result.y > 0.0 {
      result := result.(y := result.y * posY);
    } else if result.y < 0.0 {
      result := result.(y := result.y * negY);
    }

    if result.z > 0.0 {
      result := result.(z := result.z * posZ);
    } else if result.z < 0.0 {
      result := result.(z := result.z * negZ);
    }
  }

  /** The three-way rule on every axis: the "pos" factor for a strictly
      positive component, the "neg" factor for a strictly negative one, and
      an unchanged zero. */
  lemma SignRule(value: Vector3,
                 posX: real, negX: real,
                 posY: real, negY: real,
                 posZ: real, negZ: real)
    ensures var r := ScaleCustom(value, posX, negX, posY, negY, posZ, negZ);
      && (value.x > 0.0 ==> r.x == value.x * posX)
      && (value.x < 0.0 ==> r.x == value.x * negX)
      && (value.x == 0.0 ==> r.x == 0.0)
      && (value.y > 0.0 ==> r.y == value.y * posY)
      && (value.y < 0.0 ==> r.y == value.y * negY)
      && (value.y == 0.0 ==> r.y == 0.0)
      && (value.z > 0.0 ==> r.z == value.z * posZ)
      && (value.z < 0.0 ==> r.z == value.z * negZ)
      && (value.z == 0.0 ==> r.z == 0.0)
  {
  }

  /** The axes do not interact: each component of the result is fixed by
      the same component of `value` and that axis's two factors alone. */
  lemma AxesIndependent(v: Vector3,
                        posX: real, negX: real, posY: real, negY: real, posZ: real, negZ: real,
                        w: Vector3,
                        posX': real, negX': real, posY': real, negY': real, posZ': real, negZ': real)
    ensures var a := ScaleCustom(v, posX, negX, posY, negY, posZ, negZ);
            var b := ScaleCustom(w, posX', negX', posY', negY', posZ', negZ');
      && (v.x == w.x && posX == posX' && negX == negX' ==> a.x == b.x)
      && (v.y == w.y && posY == posY' && negY == negY' ==> a.y == b.y)
      && (v.z == w.z && posZ == posZ' && negZ == negZ' ==> a.z == b.z)
  {
  }

  /** One axis of `Compose`. */
  lemma AxisCompose(c: real, pos: real, neg: real, pos': real, neg': real)
    requires pos > 0.0 && neg > 0.0
    ensures AxisScale(AxisScale(c, pos, neg), pos', neg') == AxisScale(c, pos * pos', neg * neg')
  {

  }

  /** Composition: scaling by strictly positive factors and then by any
      factors is a single scale by the axis-wise products of the factors
      (the first scale keeps every sign, so the second picks the same
      factor on each axis). */
  lemma {:induction false} Compose(value: Vector3,
                posX: real, negX: real, posY: real, negY: real, posZ: real, negZ: real,
                posX': real, negX': real, posY': real, negY': real, posZ': real, negZ': real)
    requires posX > 0.0 && negX > 0.0
    requires posY > 0.0 && negY > 0.0
    requires posZ > 0.0 && negZ > 0.0
    ensures ScaleCustom(ScaleCustom(value, posX, negX, posY, negY, posZ, negZ),
                        posX', negX', posY', negY', posZ', negZ')
         == ScaleCustom(value, posX * posX', negX * negX', posY * posY', negY * negY',
                        posZ * posZ', negZ * negZ')
  {
    AxisCompose(value.x, posX, negX, posX', negX');
    AxisCompose(value.y, posY, negY, posY', negY');
    AxisCompose(value.z, posZ, negZ, posZ', negZ');
  }

  /** The inverse: with strictly positive factors, scaling by the
      reciprocals of the same six factors gives back `value`. */
  lemma {:induction false} ReciprocalRoundTrip(value: Vector3,
                                               posX: real, negX: real,
                                               posY: real, negY: real,
                                               posZ: real, negZ: real)
    requires posX > 0.0 && negX > 0.0
    requires posY > 0.0 && negY > 0.0
    requires posZ > 0.0 && negZ > 0.0
    ensures ScaleCustom(ScaleCustom(value, posX, negX, posY, negY, posZ, negZ),
                        1.0 / posX, 1.0 / negX, 1.0 / posY, 1.0 / negY, 1.0 / posZ, 1.0 / negZ)
         == value
  {
    AxisRoundTrip(value.x, posX, negX);
    AxisRoundTrip(value.y, posY, negY);
    AxisRoundTrip(value.z, posZ, negZ);
  }

  /** One axis of `ReciprocalRoundTrip`. */
  lemma AxisRoundTrip(c: real, pos: real, neg: real)
    requires pos > 0.0 && neg > 0.0
    ensures AxisScale(AxisScale(c, pos, neg), 1.0 / pos, 1.0 / neg) == c
  {

  }

  /** The probe (1, 1, 1) reads off the three "pos" factors and the probe
      (-1, -1, -1) the three "neg" factors, negated. */
  lemma Probes(posX: real, negX: real,
               posY: real, negY: real,
               posZ: real, negZ: real)
    ensures ScaleCustom(Vector3(1.0, 1.0, 1.0), posX, negX, posY, negY, posZ, negZ)
         == Vector3(posX, posY, posZ)
    ensures ScaleCustom(Vector3(-1.0, -1.0, -1.0), posX, negX, posY, negY, posZ, negZ)
         == Vector3(-negX, -negY, -negZ)
  {
  }

  /** All six factors matter: two factor lists give the same scale on every
      vector exactly when they are the same list. */
  lemma {:induction false} FactorsDetermined(posX: real, negX: real, posY: real, negY: real, posZ: real, negZ: real,
                                             posX': real, negX': real, posY': real, negY': real, posZ': real, negZ': real)
    ensures (forall v :: ScaleCustom(v, posX, negX, posY, negY, posZ, negZ)
                      == ScaleCustom(v, posX', negX', posY', negY', posZ', negZ'))
        <==> (posX == posX' && negX == negX' && posY == posY' && negY == negY' && posZ == posZ' && negZ == negZ')
  {
    if forall v :: ScaleCustom(v, posX, negX, posY, negY, posZ, negZ)
                == ScaleCustom(v, posX', negX', posY', negY', posZ', negZ')
    {
      Probes(posX, negX, posY, negY, posZ, negZ);
      Probes(posX', negX', posY', negY', posZ', negZ');
      assert Vector3(posX, posY, posZ) == Vector3(posX', posY', posZ');
      assert Vector3(-negX, -negY, -negZ) == Vector3(-negX', -negY', -negZ');
    }
  }

  /** The scale is the identity on every vector exactly when all six
      factors are 1. */
  lemma {:induction false} IdentityIff(posX: real, negX: real,
                                       posY: real, negY: real,
                                       posZ: real, negZ: real)
    ensures (forall v :: ScaleCustom(v, posX, negX, posY, negY, posZ, negZ) == v)
        <==> (posX == negX == posY == negY == posZ == negZ == 1.0)
  {
    if forall v :: ScaleCustom(v, posX, negX, posY, negY, posZ, negZ) == v {
      Probes(posX, negX, posY, negY, posZ, negZ);
      assert Vector3(posX, posY, posZ) == Vector3(1.0, 1.0, 1.0);
      assert Vector3(-negX, -negY, -negZ) == Vector3(-1.0, -1.0, -1.0);
    }
  }

  /** The scale agrees with `Vector3.Scale` by the "pos" factors on every
      vector exactly when each axis's "neg" factor equals its "pos" factor. */
  lemma {:induction false} ScaleIff(posX: real, negX: real,
                                    posY: real, negY: real,
                                    posZ: real, negZ: real)
    ensures (forall v :: ScaleCustom(v, posX, negX, posY, negY, posZ, negZ)
                      == Scale(v, Vector3(posX, posY, posZ)))
        <==> (posX == negX && posY == negY && posZ == negZ)
  {
    if forall v :: ScaleCustom(v, posX, negX, posY, negY, posZ, negZ)
                == Scale(v, Vector3(posX, posY, posZ))
    {
      Probes(posX, negX, posY, negY, posZ, negZ);
      assert Vector3(-negX, -negY, -negZ) == Scale(Vector3(-1.0, -1.0, -1.0), Vector3(posX, posY, posZ));
    }
  }

  /** The scale keeps the sign of every component of every vector exactly
      when all six factors are strictly positive. */
  lemma {:induction false} KeepsSignsIff(posX: real, negX: real,
                                         posY: real, negY: real,
                                         posZ: real, negZ: real)
    ensures (forall v :: SameSigns(ScaleCustom(v, posX, negX, posY, negY, posZ, negZ), v))
        <==> (posX > 0.0 && negX > 0.0 && posY > 0.0 && negY > 0.0 && posZ > 0.0 && negZ > 0.0)
  {
    if forall v :: SameSigns(ScaleCustom(v, posX, negX, posY, negY, posZ, negZ), v) {
      Probes(posX, negX, posY, negY, posZ, negZ);
      assert SameSigns(Vector3(posX, posY, posZ), Vector3(1.0, 1.0, 1.0));
      assert SameSigns(Vector3(-negX, -negY, -negZ), Vector3(-1.0, -1.0, -1.0));
    }
  }
}
