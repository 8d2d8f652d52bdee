/** The value entities shared by the tape, the backward sweep and the optimizers. A tensor keeps
    its shape and its values; dtype, device and provenance are not modelled. */
module Tensors {

  datatype Option<+T> = None | Some(value: T)

  datatype Error =
    | MissingTensor               // an activation that is neither resident nor replayed
    | KernelFailed                // a forward, backward or addition kernel reported an error
    | MultipleContributions       // the fused step met the same parameter twice

  datatype Result<+T> = Ok(value: T) | Err(error: Error)

  datatype Tensor = Tensor(shape: seq<nat>, data: seq<real>)

  predicate Like(a: Tensor, b: Tensor) {
    a.shape == b.shape && |a.data| == |b.data|
  }

  datatype InjectionPoint =
    QProj | KProj | VProj | OProj | GateProj | UpProj | DownProj | Logits

  datatype ParamId = ParamId(layerIdx: nat, adapterId: nat, point: InjectionPoint, isA: bool)

  datatype TrainableParam = TrainableParam(id: ParamId, data: Tensor, grad: Tensor, frozen: bool)

  function ZerosLike(t: Tensor): (z: Tensor)
    ensures Like(z, t) && forall i :: 0 <= i < |z.data| ==> z.data[i] == 0.0
  {
    Tensor(t.shape, seq(|t.data|, _ => 0.0))
  }

  function ZeroGrad(p: TrainableParam): TrainableParam {
    p.(grad := ZerosLike(p.grad))
  }
}
