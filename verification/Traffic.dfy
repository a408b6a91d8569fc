/**
 The exchanges between ranks that the unskip functions switch on (cell_unskip_hydro_tasks,
 _gravity_tasks, _stars_tasks, _black_holes_tasks, _rt_tasks) for the pair tasks across ranks.  Every rank
 decides by itself, from what it knows of the two cells; nobody compares notes.
 */
module Traffic {
  datatype Subtype =
    Xv | Rho | Gradient | Limiter | SfCounts | GravityParts | GravCounts
    | SpartDensity | PartPrep1 | SpartPrep2
    | BpartRho | PartSwallow | BpartMerger | BpartFeedback
    | RtGradient | RtTransport

  datatype Physics = Hydro | Gravity | Stars | BlackHoles | Radiation

  /** What a rank knows of one end of a pair task; foreign cells are known as well as local ones. */
  datatype End = End(
    id: int, rank: int, hydroCount: nat, gravCount: nat, bhCount: nat,
    hydroActive: bool, gravActive: bool, starsNeeded: bool, bhActive: bool, rtActive: bool)

  datatype PairTask = PairTask(ci: End, cj: End)

  /** The policies and compile-time switches the branches depend on. */
  datatype Options = Options(
    limiter: bool, feedback: bool, starFormation: bool,
    extraHydroLoop: bool, extraStarLoops: bool, symmetric: bool, symmetricRt: bool, subCycle: bool)

  datatype Exchange = Send(cell: int, to: int, what: Subtype) | Recv(cell: int, from: int, what: Subtype)

  /** A drift task: of the gas, gparts, stars or black holes of a cell. */
  datatype DriftOf = DriftPart(cell: int) | DriftGpart(cell: int) | DriftSpart(cell: int) | DriftBpart(cell: int)

  function BhActive(c: End): bool { c.bhCount > 0 && c.bhActive }

  /** The cells engine_do_unskip_* passes over, with everything below and the links hanging from them. */
  predicate PassedOver(p: Physics, c: End, o: Options) {
    match p
    case Hydro => c.hydroCount == 0 || (!o.symmetric && !c.hydroActive)
    case Gravity => c.gravCount == 0 || !c.gravActive
    case Stars => !c.starsNeeded
    case BlackHoles => false
    case Radiation => c.hydroCount == 0 || !c.rtActive
  }

  // ----- one pair -----

  method HydroPair(t: PairTask, rank: int, o: Options) returns (acts: set<Exchange>, drifts: set<DriftOf>)
    requires t.ci.rank == rank || t.cj.rank == rank
    ensures Agreed(Hydro, t, rank, o, acts) && SentDrifted(Hydro, t, rank, acts, drifts)
    ensures PairServed(Hydro, t, rank, o, acts) && JustDrifted(Hydro, t, rank, drifts)
  {
    acts, drifts := {}, {};
    var ci, cj := t.ci, t.cj;
    var ciActive, cjActive := ci.hydroActive, cj.hydroActive;
    if (ciActive && ci.rank == rank) || (cjActive && cj.rank == rank) {
      if ci.rank == rank { drifts := drifts + {DriftPart(ci.id)}; }
      if cj.rank == rank { drifts := drifts + {DriftPart(cj.id)}; }
    }
    if ci.rank != rank {
      acts, drifts := HydroFromCi(ci, cj, o, drifts);
    } else if cj.rank != rank {
      acts, drifts := HydroFromCj(ci, cj, o, drifts);
    }
    AgreedServes(Hydro, t, rank, o, acts);
  }

  method HydroFromCi(ci: End, cj: End, o: Options, sofar: set<DriftOf>)
    returns (acts: set<Exchange>, drifts: set<DriftOf>)
    requires cj.hydroActive ==> DriftPart(cj.id) in sofar
    ensures forall a :: a in acts <==> Due(Hydro, cj, ci, o, a)
    ensures Drifted(Hydro, cj, acts, drifts)
    ensures forall d :: d in drifts <==>
      d in sofar || (d == DriftPart(cj.id) && (ci.hydroActive || (cj.hydroActive && o.symmetric)))
  {
    acts, drifts := {}, sofar;
    var ciActive, cjActive := ci.hydroActive, cj.hydroActive;
    if cjActive {
      acts := acts + {Recv(ci.id, ci.rank, Xv)};
      if ciActive {
        acts := acts + {Recv(ci.id, ci.rank, Rho)};
        if o.extraHydroLoop { acts := acts + {Recv(ci.id, ci.rank, Gradient)}; }
      }
    } else if ciActive {
      if o.symmetric {
        acts := acts + {Recv(ci.id, ci.rank, Xv)};
        if !o.extraHydroLoop {
          acts := acts + {Recv(ci.id, ci.rank, Rho)};
        } else {
          acts := acts + {Recv(ci.id, ci.rank, Gradient)};
        }
      }
    }
    if ciActive && o.limiter {
      acts := acts + {Recv(ci.id, ci.rank, Limiter)};
    }
    if ciActive {
      acts := acts + {Send(cj.id, ci.rank, Xv)};
      drifts := drifts + {DriftPart(cj.id)};
      if cjActive {
        acts := acts + {Send(cj.id, ci.rank, Rho)};
        if o.extraHydroLoop { acts := acts + {Send(cj.id, ci.rank, Gradient)}; }
      }
    } else if cjActive {
      if o.symmetric {
        acts := acts + {Send(cj.id, ci.rank, Xv)};
        drifts := drifts + {DriftPart(cj.id)};
        if !o.extraHydroLoop {
          acts := acts + {Send(cj.id, ci.rank, Rho)};
        } else {
          acts := acts + {Send(cj.id, ci.rank, Gradient)};
        }
      }
    }
    if cjActive && o.limiter {
      acts := acts + {Send(cj.id, ci.rank, Limiter)};
    }
    if o.starFormation && o.feedback {
      if ciActive && ci.hydroCount > 0 { acts := acts + {Recv(ci.id, ci.rank, SfCounts)}; }
      if cjActive && cj.hydroCount > 0 { acts := acts + {Send(cj.id, ci.rank, SfCounts)}; }
    }
  }

  method HydroFromCj(ci: End, cj: End, o: Options, sofar: set<DriftOf>)
    returns (acts: set<Exchange>, drifts: set<DriftOf>)
    requires ci.hydroActive ==> DriftPart(ci.id) in sofar
    ensures forall a :: a in acts <==> Due(Hydro, ci, cj, o, a)
    ensures Drifted(Hydro, ci, acts, drifts)
    ensures forall d :: d in drifts <==>
      d in sofar || (d == DriftPart(ci.id) && (cj.hydroActive || (ci.hydroActive && o.symmetric)))
  {
    acts, drifts := {}, sofar;
    var ciActive, cjActive := ci.hydroActive, cj.hydroActive;
    if ciActive {
      acts := acts + {Recv(cj.id, cj.rank, Xv)};
      if cjActive {
        acts := acts + {Recv(cj.id, cj.rank, Rho)};
        if o.extraHydroLoop { acts := acts + {Recv(cj.id, cj.rank, Gradient)}; }
      }
    } else if cjActive {
      if o.symmetric {
        acts := acts + {Recv(cj.id, cj.rank, Xv)};
        if !o.extraHydroLoop {
          acts := acts + {Recv(cj.id, cj.rank, Rho)};
        } else {
          acts := acts + {Recv(cj.id, cj.rank, Gradient)};
        }
      }
    }
    if cjActive && o.limiter {
      acts := acts + {Recv(cj.id, cj.rank, Limiter)};
    }
    if cjActive {
      acts := acts + {Send(ci.id, cj.rank, Xv)};
      drifts := drifts + {DriftPart(ci.id)};
      if ciActive {
        acts := acts + {Send(ci.id, cj.rank, Rho)};
        if o.extraHydroLoop { acts := acts + {Send(ci.id, cj.rank, Gradient)}; }
      }
    } else if ciActive {
      if o.symmetric {
        acts := acts + {Send(ci.id, cj.rank, Xv)};
        drifts := drifts + {DriftPart(ci.id)};
        if !o.extraHydroLoop {
          acts := acts + {Send(ci.id, cj.rank, Rho)};
        } else {
          acts := acts + {Send(ci.id, cj.rank, Gradient)};
        }
      }
    }
    if ciActive && o.limiter {
      acts := acts + {Send(ci.id, cj.rank, Limiter)};
    }
    if o.starFormation && o.feedback {
      if cjActive && cj.hydroCount > 0 { acts := acts + {Recv(cj.id, cj.rank, SfCounts)}; }
      if ciActive && ci.hydroCount > 0 { acts := acts + {Send(ci.id, cj.rank, SfCounts)}; }
    }
  }

  method GravityPair(t: PairTask, rank: int, o: Options) returns (acts: set<Exchange>, drifts: set<DriftOf>)
    requires t.ci.rank == rank || t.cj.rank == rank
    ensures Agreed(Gravity, t, rank, o, acts) && SentDrifted(Gravity, t, rank, acts, drifts)
    ensures PairServed(Gravity, t, rank, o, acts) && JustDrifted(Gravity, t, rank, drifts)
  {
    acts, drifts := {}, {};
    var ci, cj := t.ci, t.cj;
    var ciActive, cjActive := ci.gravActive, cj.gravActive;
    if ci.rank != rank {
      if cjActive { acts := acts + {Recv(ci.id, ci.rank, GravityParts)}; }
      if ciActive {
        acts := acts + {Send(cj.id, ci.rank, GravityParts)};
        drifts := drifts + {DriftGpart(cj.id)};
      }
      if o.starFormation {
        if ciActive && ci.hydroCount > 0 { acts := acts + {Recv(ci.id, ci.rank, GravCounts)}; }
        if cjActive && cj.hydroCount > 0 { acts := acts + {Send(cj.id, ci.rank, GravCounts)}; }
      }
    } else if cj.rank != rank {
      if ciActive { acts := acts + {Recv(cj.id, cj.rank, GravityParts)}; }
      if cjActive {
        acts := acts + {Send(ci.id, cj.rank, GravityParts)};
        drifts := drifts + {DriftGpart(ci.id)};
      }
      if o.starFormation {
        if cjActive && cj.hydroCount > 0 { acts := acts + {Recv(cj.id, cj.rank, GravCounts)}; }
        if ciActive && ci.hydroCount > 0 { acts := acts + {Send(ci.id, cj.rank, GravCounts)}; }
      }
    }
    AgreedServes(Gravity, t, rank, o, acts);
  }

  method StarsPair(t: PairTask, rank: int, o: Options) returns (acts: set<Exchange>, drifts: set<DriftOf>)
    requires t.ci.rank == rank || t.cj.rank == rank
    ensures Agreed(Stars, t, rank, o, acts) && SentDrifted(Stars, t, rank, acts, drifts)
    ensures PairServed(Stars, t, rank, o, acts) && JustDrifted(Stars, t, rank, drifts)
  {
    acts, drifts := {}, {};
    if t.ci.rank != rank {
      acts, drifts := StarsFromCi(t.ci, t.cj, o);
    } else if t.cj.rank != rank {
      acts, drifts := StarsFromCj(t.ci, t.cj, o);
    }
    AgreedServes(Stars, t, rank, o, acts);
  }

  method StarsFromCi(ci: End, cj: End, o: Options) returns (acts: set<Exchange>, drifts: set<DriftOf>)
    ensures forall a :: a in acts <==> Due(Stars, cj, ci, o, a)
    ensures Drifted(Stars, cj, acts, drifts) && forall d :: d in drifts <==> ToDrift(Stars, cj, ci, true, d)
  {
    acts, drifts := {}, {};
    var ciActive, cjActive := ci.starsNeeded, cj.starsNeeded;
    if cjActive {
      acts := acts + {Recv(ci.id, ci.rank, Xv), Recv(ci.id, ci.rank, Rho)};
      if o.extraStarLoops { acts := acts + {Recv(ci.id, ci.rank, PartPrep1)}; }
      acts := acts + {Send(cj.id, ci.rank, SpartDensity)};
      if o.extraStarLoops { acts := acts + {Send(cj.id, ci.rank, SpartPrep2)}; }
      drifts := drifts + {DriftSpart(cj.id)};
    }
    if ciActive {
      acts := acts + {Recv(ci.id, ci.rank, SpartDensity)};
      if o.extraStarLoops { acts := acts + {Recv(ci.id, ci.rank, SpartPrep2)}; }
      acts := acts + {Send(cj.id, ci.rank, Xv), Send(cj.id, ci.rank, Rho)};
      if o.extraStarLoops { acts := acts + {Send(cj.id, ci.rank, PartPrep1)}; }
      drifts := drifts + {DriftPart(cj.id)};
    }
  }

  method StarsFromCj(ci: End, cj: End, o: Options) returns (acts: set<Exchange>, drifts: set<DriftOf>)
    ensures forall a :: a in acts <==> Due(Stars, ci, cj, o, a)
    ensures Drifted(Stars, ci, acts, drifts) && forall d :: d in drifts <==> ToDrift(Stars, ci, cj, true, d)
  {
    acts, drifts := {}, {};
    var ciActive, cjActive := ci.starsNeeded, cj.starsNeeded;
    if ciActive {
      acts := acts + {Recv(cj.id, cj.rank, Xv), Recv(cj.id, cj.rank, Rho)};
      if o.extraStarLoops { acts := acts + {Recv(cj.id, cj.rank, PartPrep1)}; }
      acts := acts + {Send(ci.id, cj.rank, SpartDensity)};
      if o.extraStarLoops { acts := acts + {Send(ci.id, cj.rank, SpartPrep2)}; }
      drifts := drifts + {DriftSpart(ci.id)};
    }
    if cjActive {
      acts := acts + {Recv(cj.id, cj.rank, SpartDensity)};
      if o.extraStarLoops { acts := acts + {Recv(cj.id, cj.rank, SpartPrep2)}; }
      acts := acts + {Send(ci.id, cj.rank, Xv), Send(ci.id, cj.rank, Rho)};
      if o.extraStarLoops { acts := acts + {Send(ci.id, cj.rank, PartPrep1)}; }
      drifts := drifts + {DriftPart(ci.id)};
    }
  }

  method BlackHolesPair(t: PairTask, rank: int, o: Options) returns (acts: set<Exchange>, drifts: set<DriftOf>)
    requires t.ci.rank == rank || t.cj.rank == rank
    ensures Agreed(BlackHoles, t, rank, o, acts) && SentDrifted(BlackHoles, t, rank, acts, drifts)
    ensures PairServed(BlackHoles, t, rank, o, acts) && JustDrifted(BlackHoles, t, rank, drifts)
  {
    acts, drifts := {}, {};
    if t.ci.rank != rank {
      acts, drifts := BlackHolesFromCi(t.ci, t.cj, o);
    } else if t.cj.rank != rank {
      acts, drifts := BlackHolesFromCj(t.ci, t.cj, o);
    }
    AgreedServes(BlackHoles, t, rank, o, acts);
  }

  method BlackHolesFromCi(ci: End, cj: End, o: Options) returns (acts: set<Exchange>, drifts: set<DriftOf>)
    ensures forall a :: a in acts <==> Due(BlackHoles, cj, ci, o, a)
    ensures Drifted(BlackHoles, cj, acts, drifts) && forall d :: d in drifts <==> ToDrift(BlackHoles, cj, ci, true, d)
  {
    acts, drifts := {}, {};
    var ciActive, cjActive := BhActive(ci), BhActive(cj);
    if ciActive || cjActive {
      acts := acts + {Recv(ci.id, ci.rank, BpartRho), Send(cj.id, ci.rank, BpartRho)};
      if cj.bhCount > 0 { drifts := drifts + {DriftBpart(cj.id)}; }
    }
    if cjActive {
      acts := acts + {Recv(ci.id, ci.rank, Rho), Recv(ci.id, ci.rank, PartSwallow), Recv(ci.id, ci.rank, BpartMerger)};
      acts := acts + {Send(cj.id, ci.rank, BpartFeedback)};
      drifts := drifts + {DriftBpart(cj.id)};
    }
    if ciActive {
      acts := acts + {Recv(ci.id, ci.rank, BpartFeedback)};
      acts := acts + {Send(cj.id, ci.rank, Rho), Send(cj.id, ci.rank, PartSwallow), Send(cj.id, ci.rank, BpartMerger)};
      if cj.hydroCount > 0 { drifts := drifts + {DriftPart(cj.id)}; }
    }
  }

  method BlackHolesFromCj(ci: End, cj: End, o: Options) returns (acts: set<Exchange>, drifts: set<DriftOf>)
    ensures forall a :: a in acts <==> Due(BlackHoles, ci, cj, o, a)
    ensures Drifted(BlackHoles, ci, acts, drifts) && forall d :: d in drifts <==> ToDrift(BlackHoles, ci, cj, true, d)
  {
    acts, drifts := {}, {};
    var ciActive, cjActive := BhActive(ci), BhActive(cj);
    if ciActive || cjActive {
      acts := acts + {Recv(cj.id, cj.rank, BpartRho), Send(ci.id, cj.rank, BpartRho)};
      if ci.bhCount > 0 { drifts := drifts + {DriftBpart(ci.id)}; }
    }
    if ciActive {
      acts := acts + {Recv(cj.id, cj.rank, Rho), Recv(cj.id, cj.rank, PartSwallow), Recv(cj.id, cj.rank, BpartMerger)};
      acts := acts + {Send(ci.id, cj.rank, BpartFeedback)};
      drifts := drifts + {DriftBpart(ci.id)};
    }
    if cjActive {
      acts := acts + {Recv(cj.id, cj.rank, BpartFeedback)};
      acts := acts + {Send(ci.id, cj.rank, Rho), Send(ci.id, cj.rank, PartSwallow), Send(ci.id, cj.rank, BpartMerger)};
      if ci.hydroCount > 0 { drifts := drifts + {DriftPart(ci.id)}; }
    }
  }

  method RadiationPair(t: PairTask, rank: int, o: Options) returns (acts: set<Exchange>)
    requires t.ci.rank == rank || t.cj.rank == rank
    ensures Agreed(Radiation, t, rank, o, acts)
    ensures PairServed(Radiation, t, rank, o, acts)
  {
    acts := {};
    var ci, cj := t.ci, t.cj;
    var ciActive, cjActive := ci.rtActive, cj.rtActive;
    if ci.rank != rank {
      if cjActive {
        acts := acts + {Recv(ci.id, ci.rank, RtGradient)};
        if ciActive { acts := acts + {Recv(ci.id, ci.rank, RtTransport)}; }
      } else if ciActive {
        if o.symmetricRt {
          if !o.subCycle { acts := acts + {Recv(ci.id, ci.rank, RtGradient)}; }
          acts := acts + {Recv(ci.id, ci.rank, RtTransport)};
        }
      }
      if ciActive {
        acts := acts + {Send(cj.id, ci.rank, RtGradient)};
        if cjActive { acts := acts + {Send(cj.id, ci.rank, RtTransport)}; }
      } else if cjActive {
        if o.symmetricRt {
          if !o.subCycle { acts := acts + {Send(cj.id, ci.rank, RtGradient)}; }
          acts := acts + {Send(cj.id, ci.rank, RtTransport)};
        }
      }
    } else if cj.rank != rank {
      if ciActive {
        acts := acts + {Recv(cj.id, cj.rank, RtGradient)};
        if cjActive { acts := acts + {Recv(cj.id, cj.rank, RtTransport)}; }
      } else if cjActive {
        if o.symmetricRt {
          if !o.subCycle { acts := acts + {Recv(cj.id, cj.rank, RtGradient)}; }
          acts := acts + {Recv(cj.id, cj.rank, RtTransport)};
        }
      }
      if cjActive {
        acts := acts + {Send(ci.id, cj.rank, RtGradient)};
        if ciActive { acts := acts + {Send(ci.id, cj.rank, RtTransport)}; }
      } else if ciActive {
        if o.symmetricRt {
          if !o.subCycle { acts := acts + {Send(ci.id, cj.rank, RtGradient)}; }
          acts := acts + {Send(ci.id, cj.rank, RtTransport)};
        }
      }
    }
    AgreedServes(Radiation, t, rank, o, acts);
  }

  // ----- what the two ends need -----

  /** The rank of `mine` receives this from the foreign cell. */
  predicate Gets(theirs: End, what: Subtype, acts: set<Exchange>) {
    Recv(theirs.id, theirs.rank, what) in acts
  }

  /** It sends this to the rank of the foreign cell. */
  predicate Gives(mine: End, theirs: End, what: Subtype, acts: set<Exchange>) {
    Send(mine.id, theirs.rank, what) in acts
  }

  /** An active end gets the particles of the other, which its density loop reads.  Where both are active the second
      loop needs the results of the first.  With symmetric interactions both ranks compute the pair if either end is
      active.  The limiter wants the particles of active ends, and new stars are told of where gas was active. */
  ghost predicate HydroServed(mine: End, theirs: End, o: Options, acts: set<Exchange>) {
    var here, there := mine.hydroActive, theirs.hydroActive;
    && (Gets(theirs, Xv, acts) <==> here || (o.symmetric && there))
    && (Gives(mine, theirs, Xv, acts) <==> there || (o.symmetric && here))
    && (Gets(theirs, Rho, acts) <==> there && (here || (o.symmetric && !o.extraHydroLoop)))
    && (Gives(mine, theirs, Rho, acts) <==> here && (there || (o.symmetric && !o.extraHydroLoop)))
    && (Gets(theirs, Gradient, acts) <==> o.extraHydroLoop && there && (here || o.symmetric))
    && (Gives(mine, theirs, Gradient, acts) <==> o.extraHydroLoop && here && (there || o.symmetric))
    && (Gets(theirs, Limiter, acts) <==> o.limiter && there)
    && (Gives(mine, theirs, Limiter, acts) <==> o.limiter && here)
    && (Gets(theirs, SfCounts, acts) <==> o.starFormation && o.feedback && there && theirs.hydroCount > 0)
    && (Gives(mine, theirs, SfCounts, acts) <==> o.starFormation && o.feedback && here && mine.hydroCount > 0)
    && (!here && !there ==> acts == {})
  }

  /** An active end gets the gparts of the other. */
  ghost predicate GravityServed(mine: End, theirs: End, o: Options, acts: set<Exchange>) {
    var here, there := mine.gravActive, theirs.gravActive;
    && (Gets(theirs, GravityParts, acts) <==> here) && (Gives(mine, theirs, GravityParts, acts) <==> there)
    && (Gets(theirs, GravCounts, acts) <==> o.starFormation && there && theirs.hydroCount > 0)
    && (Gives(mine, theirs, GravCounts, acts) <==> o.starFormation && here && mine.hydroCount > 0)
    && (!here && !there ==> acts == {})
  }

  /** An end with active stars gets the gas of the other for its density loop, and the other gets its stars for
      feedback on that gas. */
  ghost predicate StarsServed(mine: End, theirs: End, o: Options, acts: set<Exchange>) {
    var here, there := mine.starsNeeded, theirs.starsNeeded;
    && (Gets(theirs, Xv, acts) <==> here) && (Gets(theirs, Rho, acts) <==> here)
    && (Gives(mine, theirs, Xv, acts) <==> there) && (Gives(mine, theirs, Rho, acts) <==> there)
    && (Gets(theirs, SpartDensity, acts) <==> there) && (Gives(mine, theirs, SpartDensity, acts) <==> here)
    && (Gets(theirs, PartPrep1, acts) <==> here && o.extraStarLoops)
    && (Gives(mine, theirs, PartPrep1, acts) <==> there && o.extraStarLoops)
    && (Gets(theirs, SpartPrep2, acts) <==> there && o.extraStarLoops)
    && (Gives(mine, theirs, SpartPrep2, acts) <==> here && o.extraStarLoops)
    && (!here && !there ==> acts == {})
  }

  /** An end with active black holes gets the gas of the other, to accrete and to swallow, and the other gets its black
      holes for feedback; the black holes themselves go both ways as soon as one end is active. */
  ghost predicate BlackHolesServed(mine: End, theirs: End, o: Options, acts: set<Exchange>) {
    var here, there := mine.bhCount > 0 && mine.bhActive, theirs.bhCount > 0 && theirs.bhActive;
    && (Gets(theirs, BpartRho, acts) <==> here || there) && (Gives(mine, theirs, BpartRho, acts) <==> here || there)
    && (Gets(theirs, Rho, acts) <==> here) && (Gives(mine, theirs, Rho, acts) <==> there)
    && (Gets(theirs, PartSwallow, acts) <==> here) && (Gives(mine, theirs, PartSwallow, acts) <==> there)
    && (Gets(theirs, BpartMerger, acts) <==> here) && (Gives(mine, theirs, BpartMerger, acts) <==> there)
    && (Gets(theirs, BpartFeedback, acts) <==> there) && (Gives(mine, theirs, BpartFeedback, acts) <==> here)
    && (!here && !there ==> acts == {})
  }

  /** An active end gets the gradients of the other, and its transport data too where both are active.  With symmetric
      interactions both ranks compute the pair if either end is active, but need no gradients for it in sub-cycles. */
  ghost predicate RadiationServed(mine: End, theirs: End, o: Options, acts: set<Exchange>) {
    var here, there := mine.rtActive, theirs.rtActive;
    && (Gets(theirs, RtGradient, acts) <==> here || (o.symmetricRt && there && !o.subCycle))
    && (Gives(mine, theirs, RtGradient, acts) <==> there || (o.symmetricRt && here && !o.subCycle))
    && (Gets(theirs, RtTransport, acts) <==> there && (here || o.symmetricRt))
    && (Gives(mine, theirs, RtTransport, acts) <==> here && (there || o.symmetricRt))
    && (!here && !there ==> acts == {})
  }

  ghost predicate Served(p: Physics, mine: End, theirs: End, o: Options, acts: set<Exchange>) {
    && (forall a :: a in acts ==>
          match a
          case Send(c, r, _) => c == mine.id && r == theirs.rank
          case Recv(c, r, _) => c == theirs.id && r == theirs.rank)
    && match p
       case Hydro => HydroServed(mine, theirs, o, acts)
       case Gravity => GravityServed(mine, theirs, o, acts)
       case Stars => StarsServed(mine, theirs, o, acts)
       case BlackHoles => BlackHolesServed(mine, theirs, o, acts)
       case Radiation => RadiationServed(mine, theirs, o, acts)
  }

  /** Both ends of the pair have what they need, and no more; between two cells of the rank nothing is exchanged. */
  ghost predicate PairServed(p: Physics, t: PairTask, rank: int, o: Options, acts: set<Exchange>) {
    if t.ci.rank != rank then Served(p, t.cj, t.ci, o, acts)
    else if t.cj.rank != rank then Served(p, t.ci, t.cj, o, acts)
    else acts == {}
  }

  /** What is due is what is needed. */
  lemma HydroDue(mine: End, theirs: End, o: Options, acts: set<Exchange>)
    requires forall a :: a in acts <==> Due(Hydro, mine, theirs, o, a)
    ensures HydroServed(mine, theirs, o, acts)
  {
    if a :| a in acts { assert Due(Hydro, mine, theirs, o, a); }
  }

  lemma GravityDue(mine: End, theirs: End, o: Options, acts: set<Exchange>)
    requires forall a :: a in acts <==> Due(Gravity, mine, theirs, o, a)
    ensures GravityServed(mine, theirs, o, acts)
  {
    if a :| a in acts { assert Due(Gravity, mine, theirs, o, a); }
  }

  lemma StarsDue(mine: End, theirs: End, o: Options, acts: set<Exchange>)
    requires forall a :: a in acts <==> Due(Stars, mine, theirs, o, a)
    ensures StarsServed(mine, theirs, o, acts)
  {
    if a :| a in acts { assert Due(Stars, mine, theirs, o, a); }
  }

  lemma BlackHolesDue(mine: End, theirs: End, o: Options, acts: set<Exchange>)
    requires forall a :: a in acts <==> Due(BlackHoles, mine, theirs, o, a)
    ensures BlackHolesServed(mine, theirs, o, acts)
  {
    if a :| a in acts { assert Due(BlackHoles, mine, theirs, o, a); }
  }

  lemma RadiationDue(mine: End, theirs: End, o: Options, acts: set<Exchange>)
    requires forall a :: a in acts <==> Due(Radiation, mine, theirs, o, a)
    ensures RadiationServed(mine, theirs, o, acts)
  {
    if a :| a in acts { assert Due(Radiation, mine, theirs, o, a); }
  }

  lemma DueServes(p: Physics, mine: End, theirs: End, o: Options, acts: set<Exchange>)
    requires forall a :: a in acts <==> Due(p, mine, theirs, o, a)
    ensures Served(p, mine, theirs, o, acts)
  {
    hide Shipped, HydroServed, GravityServed, StarsServed, BlackHolesServed, RadiationServed;
    match p
    case Hydro => HydroDue(mine, theirs, o, acts);
    case Gravity => GravityDue(mine, theirs, o, acts);
    case Stars => StarsDue(mine, theirs, o, acts);
    case BlackHoles => BlackHolesDue(mine, theirs, o, acts);
    case Radiation => RadiationDue(mine, theirs, o, acts);
  }

  lemma AgreedServes(p: Physics, t: PairTask, rank: int, o: Options, acts: set<Exchange>)
    requires Agreed(p, t, rank, o, acts)
    ensures PairServed(p, t, rank, o, acts)
  {
    hide Due, Served;
    if t.ci.rank != rank {
      DueServes(p, t.cj, t.ci, o, acts);
    } else if t.cj.rank != rank {
      DueServes(p, t.ci, t.cj, o, acts);
    }
  }

  // ----- what is exchanged, seen from neither side -----

  /** What goes from the rank of `from` to the rank of `to`, because of a pair task between the two. */
  predicate Shipped(p: Physics, from: End, to: End, what: Subtype, o: Options) {
    match p
    case Hydro =>
      var one := o.symmetric && from.hydroActive && !to.hydroActive;
      var both := from.hydroActive && to.hydroActive;
      (match what
       case Xv => to.hydroActive || one
       case Rho => both || (one && !o.extraHydroLoop)
       case Gradient => o.extraHydroLoop && (both || one)
       case Limiter => o.limiter && from.hydroActive
       case SfCounts => o.starFormation && o.feedback && from.hydroActive && from.hydroCount > 0
       case _ => false)
    case Gravity =>
      (match what
       case GravityParts => to.gravActive
       case GravCounts => o.starFormation && from.gravActive && from.hydroCount > 0
       case _ => false)
    case Stars =>
      (match what
       case Xv => to.starsNeeded
       case Rho => to.starsNeeded
       case PartPrep1 => o.extraStarLoops && to.starsNeeded
       case SpartDensity => from.starsNeeded
       case SpartPrep2 => o.extraStarLoops && from.starsNeeded
       case _ => false)
    case BlackHoles =>
      (match what
       case BpartRho => BhActive(from) || BhActive(to)
       case Rho => BhActive(to)
       case PartSwallow => BhActive(to)
       case BpartMerger => BhActive(to)
       case BpartFeedback => BhActive(from)
       case _ => false)
    case Radiation =>
      var one := o.symmetricRt && from.rtActive && !to.rtActive;
      (match what
       case RtGradient => to.rtActive || (one && !o.subCycle)
       case RtTransport => one || (from.rtActive && to.rtActive)
       case _ => false)
  }

  /** What a rank should switch on for one end of its own and one of somebody else's. */
  predicate Due(p: Physics, mine: End, theirs: End, o: Options, a: Exchange) {
    match a
    case Send(c, r, what) => c == mine.id && r == theirs.rank && Shipped(p, mine, theirs, what, o)
    case Recv(c, r, what) => c == theirs.id && r == theirs.rank && Shipped(p, theirs, mine, what, o)
  }

  predicate DueOn(p: Physics, t: PairTask, rank: int, o: Options, a: Exchange) {
    if t.ci.rank != rank then Due(p, t.cj, t.ci, o, a)
    else t.cj.rank != rank && Due(p, t.ci, t.cj, o, a)
  }

  ghost predicate Agreed(p: Physics, t: PairTask, rank: int, o: Options, acts: set<Exchange>) {
    forall a :: a in acts <==> DueOn(p, t, rank, o, a)
  }

  /** What a rank drifts for a pair task: the gas of its ends if either is active; otherwise what a foreign end with
      work to do will read, and its own stars and black holes where they act on foreign gas. */
  ghost predicate ToDrift(p: Physics, mine: End, theirs: End, foreign: bool, d: DriftOf) {
    match p
    case Hydro => d == DriftPart(mine.id) && (mine.hydroActive || theirs.hydroActive)
    case Gravity => foreign && theirs.gravActive && d == DriftGpart(mine.id)
    case Stars => foreign && ((mine.starsNeeded && d == DriftSpart(mine.id))
                              || (theirs.starsNeeded && d == DriftPart(mine.id)))
    case BlackHoles =>
      foreign && ((mine.bhCount > 0 && (mine.bhActive || (theirs.bhCount > 0 && theirs.bhActive)) && d == DriftBpart(mine.id))
                  || (theirs.bhCount > 0 && theirs.bhActive && mine.hydroCount > 0 && d == DriftPart(mine.id)))
    case Radiation => false
  }

  ghost predicate JustDrifted(p: Physics, t: PairTask, rank: int, drifts: set<DriftOf>) {
    forall d :: d in drifts <==>
      (t.ci.rank == rank && ToDrift(p, t.ci, t.cj, t.cj.rank != rank, d))
      || (t.cj.rank == rank && ToDrift(p, t.cj, t.ci, t.ci.rank != rank, d))
  }

  /** No particles leave the rank before they have been drifted (or there are none). */
  ghost predicate SentDrifted(p: Physics, t: PairTask, rank: int, acts: set<Exchange>, drifts: set<DriftOf>) {
    Drifted(p, if t.ci.rank != rank then t.cj else t.ci, acts, drifts)
  }

  ghost predicate Drifted(p: Physics, mine: End, acts: set<Exchange>, drifts: set<DriftOf>) {
    forall a :: a in acts && a.Send? ==>
      match a.what
      case Xv => DriftPart(a.cell) in drifts
      case Rho => DriftPart(a.cell) in drifts || (p == BlackHoles && mine.hydroCount == 0)
      case Gradient => DriftPart(a.cell) in drifts
      case Limiter => DriftPart(a.cell) in drifts
      case PartPrep1 => DriftPart(a.cell) in drifts
      case PartSwallow => DriftPart(a.cell) in drifts || mine.hydroCount == 0
      case BpartMerger => DriftPart(a.cell) in drifts || mine.hydroCount == 0
      case GravityParts => DriftGpart(a.cell) in drifts
      case SpartDensity => DriftSpart(a.cell) in drifts
      case SpartPrep2 => DriftSpart(a.cell) in drifts
      case BpartRho => DriftBpart(a.cell) in drifts || mine.bhCount == 0
      case BpartFeedback => DriftBpart(a.cell) in drifts
      case _ => true
  }

  // ----- all pairs of a cell, and of a rank -----

  /** One of the unskip functions, over the links of one cell. */
  method UnskipCell(p: Physics, links: seq<PairTask>, rank: int, o: Options) returns (acts: set<Exchange>)
    requires Own(links, rank)
    ensures forall a :: a in acts <==> exists t :: t in links && DueOn(p, t, rank, o, a)
  {
    hide DueOn, SentDrifted;
    acts := {};
    for k := 0 to |links|
      invariant forall a :: a in acts <==> exists t :: t in links[..k] && DueOn(p, t, rank, o, a)
    {
      var t := links[k];
      assert t.ci.rank == rank || t.cj.rank == rank;
      var more, drifts;
      match p {
        case Hydro => more, drifts := HydroPair(t, rank, o);
        case Gravity => more, drifts := GravityPair(t, rank, o);
        case Stars => more, drifts := StarsPair(t, rank, o);
        case BlackHoles => more, drifts := BlackHolesPair(t, rank, o);
        case Radiation => more := RadiationPair(t, rank, o);
      }
      assert links[..k + 1] == links[..k] + [t];
      acts := acts + more;
    }
    assert links[..|links|] == links;
  }

  ghost predicate Own(tasks: seq<PairTask>, rank: int) {
    forall i :: 0 <= i < |tasks| ==> tasks[i].ci.rank == rank || tasks[i].cj.rank == rank
  }

  /** This task makes the rank do `a`. */
  ghost predicate Asks(p: Physics, t: PairTask, rank: int, o: Options, a: Exchange) {
    (!PassedOver(p, t.ci, o) || !PassedOver(p, t.cj, o)) && DueOn(p, t, rank, o, a)
  }

  ghost predicate Summary(p: Physics, tasks: seq<PairTask>, rank: int, o: Options, acts: set<Exchange>) {
    forall a :: a in acts <==> exists i :: 0 <= i < |tasks| && Asks(p, tasks[i], rank, o, a)
  }

  /** The same two cells, whichever of them comes first. */
  predicate SamePair(t: PairTask, u: PairTask) {
    t == u || t == PairTask(u.cj, u.ci)
  }

  predicate Across(t: PairTask, a: int, b: int) {
    (t.ci.rank == a && t.cj.rank == b) || (t.ci.rank == b && t.cj.rank == a)
  }

  /** The two ranks have the pair tasks between them in common, in any order and orientation, and know the same
      about the cells. */
  ghost predicate InCommon(ta: seq<PairTask>, tb: seq<PairTask>, a: int, b: int) {
    && (forall i :: 0 <= i < |ta| && Across(ta[i], a, b) ==> exists j :: 0 <= j < |tb| && SamePair(ta[i], tb[j]))
    && (forall j :: 0 <= j < |tb| && Across(tb[j], a, b) ==> exists i :: 0 <= i < |ta| && SamePair(tb[j], ta[i]))
  }

  /** Seen from the other rank, a send is a receive and a receive a send. */
  lemma OtherSide(p: Physics, t: PairTask, u: PairTask, a: int, b: int, o: Options, c: int, what: Subtype)
    requires a != b && Across(t, a, b) && SamePair(t, u)
    ensures Asks(p, t, a, o, Send(c, b, what)) <==> Asks(p, u, b, o, Recv(c, a, what))
    ensures Asks(p, t, a, o, Recv(c, b, what)) <==> Asks(p, u, b, o, Send(c, a, what))
  {
    hide Shipped, PassedOver;
  }

  lemma OnlyAcross(p: Physics, t: PairTask, a: int, b: int, o: Options, x: Exchange)
    requires a != b && (t.ci.rank == a || t.cj.rank == a) && Asks(p, t, a, o, x)
    requires match x case Send(_, r, _) => r == b case Recv(_, r, _) => r == b
    ensures Across(t, a, b)
  {
    hide Shipped, PassedOver;
  }

  /** Whatever the options and the orientation of the tasks: rank `a` sends `c` to rank `b` exactly if `b` waits
      for it from `a`. */
  lemma SendsMeetReceives(p: Physics, ta: seq<PairTask>, tb: seq<PairTask>, a: int, b: int, o: Options,
                          onA: set<Exchange>, onB: set<Exchange>, c: int, what: Subtype)
    requires a != b && Own(ta, a) && Own(tb, b) && InCommon(ta, tb, a, b)
    requires Summary(p, ta, a, o, onA) && Summary(p, tb, b, o, onB)
    ensures Send(c, b, what) in onA <==> Recv(c, a, what) in onB
  {
    hide Asks, SamePair, Across;
    if Send(c, b, what) in onA {
      var i :| 0 <= i < |ta| && Asks(p, ta[i], a, o, Send(c, b, what));
      OnlyAcross(p, ta[i], a, b, o, Send(c, b, what));
      var j :| 0 <= j < |tb| && SamePair(ta[i], tb[j]);
      OtherSide(p, ta[i], tb[j], a, b, o, c, what);
    }
    if Recv(c, a, what) in onB {
      var j :| 0 <= j < |tb| && Asks(p, tb[j], b, o, Recv(c, a, what));
      OnlyAcross(p, tb[j], b, a, o, Recv(c, a, what));
      AcrossEither(tb[j], a, b);
      var i :| 0 <= i < |ta| && SamePair(tb[j], ta[i]);
      OtherSide(p, tb[j], ta[i], b, a, o, c, what);
    }
  }

  lemma AcrossEither(t: PairTask, a: int, b: int)
    requires Across(t, b, a)
    ensures Across(t, a, b)
  {
  }
}
