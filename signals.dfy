/** Shared vocabulary of the emergency-signal core: the labels the
    classifiers and the session use, observations, landmarks, and the two
    display tables (colour and message per status) that the HUD consumes. */
module Signals {

  /** Every label the source spells as a string, one constructor each. */
  datatype Label =
    | Socorro           // "SOCORRO": four fingers up, thumb folded
    | EstouBem          // "ESTOU_BEM": thumb and index up
    | PrecisoAjuda      // "PRECISO_AJUDA": index and middle up
    | Pare              // "PARE": open hand
    | Indefinido        // "INDEFINIDO": a finger pattern outside the table
    | NoHand            // "NONE": an empty hand landmark list
    | PessoaCaida       // "PESSOA_CAIDA": head level with the hips
    | PosturaNormal     // "POSTURA_NORMAL"
    | PoseNaoDetectada  // "POSE_NAO_DETECTADA": an empty pose landmark list
    | Monitorando       // "MONITORANDO": the idle status

  /** A (label, confidence) pair, as the classifiers and the stabilizer return it. */
  datatype Observation = Observation(kind: Label, confidence: real)

  /** A normalized landmark; only x and y take part in any decision. */
  datatype Landmark = Landmark(x: real, y: real)

  datatype Option<T> = None | Some(value: T)

  /** The labels that may be promoted to the displayed status. */
  predicate IsAlert(l: Label) {
    l == Socorro || l == EstouBem || l == PrecisoAjuda || l == Pare || l == PessoaCaida
  }

  /** BGR colour per displayed status. */
  const Colors: map<Label, (int, int, int)> := map[
    Socorro := (0, 0, 255),
    EstouBem := (0, 255, 0),
    PrecisoAjuda := (0, 255, 255),
    Pare := (0, 165, 255),
    PessoaCaida := (255, 0, 255),
    Monitorando := (100, 100, 100)
  ]

  /** Banner message per displayed status; the HUD indexes it directly. */
  const Messages: map<Label, string> := map[
    Socorro := "EMERGENCIA CRITICA",
    EstouBem := "PESSOA SEGURA",
    PrecisoAjuda := "PRECISA ASSISTENCIA",
    Pare := "COMANDO PARE",
    PessoaCaida := "POSSIVEL QUEDA",
    Monitorando := "SISTEMA ATIVO"
  ]

  /** Exactly the alert labels and the idle status have a colour and a message. */
  lemma DisplayTables(l: Label)
    ensures l in Messages <==> (IsAlert(l) || l == Monitorando)
    ensures l in Colors <==> l in Messages
  {
  }
}
