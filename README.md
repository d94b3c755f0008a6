# Sign-dependent per-axis vector scale

This project models `Scale_Custom.ScaleCustom` from the plane simulator. The
operation works like Unity's `Vector3.Scale`, but each axis has two factors:
one for a strictly positive component and one for a strictly negative
component. A zero component is left unchanged. The simulator's drag model uses
it so that, for example, nose-forward and tail-forward flow can have
different coefficients.

- `vector3.dfy`, module `Vectors`: Unity's `Vector3` as a datatype with three
  `real` components, the zero vector, `Vector3.Scale` (component-wise
  product), and the sign of a component.
- `scale_custom.dfy`, module `DirectionalScale`:
  - `ScaleCustom`, the specification function.
  - `ComputeScaleCustom`, a method that follows the source's body: copy
    `value` into `result`, then apply three if/else-if updates, one per axis.
  - Lemmas about the operation.

`Vector3` is a value type in C#, and so is the datatype here. So `value`
cannot be changed by the call, and the method returns a new value.

## Model

| member | source | states |
|---|---|---|
| `DirectionalScale.ScaleCustom` | Assets/Scripts/Scale_Custom.cs:8-40 | The zero vector maps to the zero vector. All six factors equal to 1 give the identity. One factor per axis for both signs gives `Vector3.Scale` by `(posX, posY, posZ)`. Six strictly positive factors keep the sign of every component. |
| `DirectionalScale.ComputeScaleCustom` | Assets/Scripts/Scale_Custom.cs:11-40 | The source's copy-then-update body, with its three-way branch on each axis, returns exactly `ScaleCustom` of its arguments. |
| `DirectionalScale.SignRule` | Assets/Scripts/Scale_Custom.cs:18-38 | On each axis: a strictly positive component is multiplied by its "pos" factor, a strictly negative one by its "neg" factor, and a zero stays zero. |
| `DirectionalScale.AxesIndependent` | Assets/Scripts/Scale_Custom.cs:18-38 | Each component of the result depends only on that component of `value` and that axis's two factors. Changing the other axes or their factors leaves it unchanged. |
| `DirectionalScale.Compose` | Assets/Scripts/Scale_Custom.cs:18-38 | Scaling by strictly positive factors and then by any factors equals one scale by the axis-wise products of the factors. |
| `DirectionalScale.ReciprocalRoundTrip` | Assets/Scripts/Scale_Custom.cs:18-38 | With strictly positive factors, scaling by the reciprocal factors undoes the scale. |
| `DirectionalScale.Probes` | Assets/Scripts/Scale_Custom.cs:18-38 | `(1, 1, 1)` maps to the three "pos" factors. `(-1, -1, -1)` maps to the three negated "neg" factors. |
| `DirectionalScale.FactorsDetermined` | Assets/Scripts/Scale_Custom.cs:8-38 | All six factors are observable. Two factor lists give the same result on every vector if and only if they are equal. |
| `DirectionalScale.IdentityIff` | Assets/Scripts/Scale_Custom.cs:18-39 | The scale is the identity on every vector if and only if all six factors are 1. |
| `DirectionalScale.ScaleIff` | Assets/Scripts/Scale_Custom.cs:8-38 | The scale equals `Vector3.Scale` by the "pos" factors on every vector if and only if each axis's "neg" factor equals its "pos" factor. |
| `DirectionalScale.KeepsSignsIff` | Assets/Scripts/Scale_Custom.cs:19-38 | The scale keeps every component's sign on every vector if and only if all six factors are strictly positive. |

## Left out

- IEEE-754 single-precision behaviour: rounding of `*=`, NaN components (left unchanged because both comparisons are false), -0.0 and infinities. The model uses exact `real` arithmetic instead.
- The `MonoBehaviour` base class and the Unity `using` imports (Assets/Scripts/Scale_Custom.cs:1-3, 9). They are engine plumbing with no behaviour. The class has no fields, so the operation is modelled as a module-level function and method, not as a class.
- Assets/Scripts/Plane_Control_Sys.cs is not part of this model. Its state estimation, angle of attack, G-force and thrust are made of Unity engine calls: rigid-body reads, quaternion inversion, `Mathf.Atan2`, `AddRelativeForce` and keyboard input. Beyond those calls it has almost no logic of its own.
- The drag, lift and induced-drag models that call this scale are not part of this model. None of their source is available.
